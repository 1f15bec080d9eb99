/** The catalogue projections of utils.py: the entities of an RO-Crate, the
    objects and results of its CreateAction, the files of a folder, the
    flags of the recorded command, and the small helpers of the status
    table. */
module Catalog {
  import opened Common
  import opened Paths
  import opened Dicts
  import opened FileSystems
  import opened Tokens

  /** A data entity of the crate: its @id, and the properties the
      verifiers and the DPF generator read. */
  datatype Entity = Entity(id: string, name: Option<string>, contentSize: Option<int>,
                           dateModified: Option<string>)

  /** One element of a composite object's hasPart. */
  datatype Part = Part(id: string, name: Option<string>)

  /** An element of the CreateAction's object list: a plain file, or a
      composite whose hasPart lists its files. */
  datatype ObjectEntry = ObjectEntry(id: string, name: Option<string>, hasPart: Option<seq<Part>>)

  /** An element of the CreateAction's result list. */
  datatype ResultEntry = ResultEntry(id: string, name: Option<string>)

  /** The CreateAction: its instrument's id, and its object and result
      properties when the crate records them. */
  datatype Action = Action(instrument: Option<string>, objects: Option<seq<ObjectEntry>>,
                           results: Option<seq<ResultEntry>>)

  /** A crate: its entities in the order get_entities yields them, and its
      CreateAction when it has one. */
  datatype Crate = Crate(entities: seq<Entity>, action: Option<Action>)

  // get_by_id

  /** The first entity whose id is the given one. */
  function EntityById(es: seq<Entity>, id: string): (r: Option<Entity>)
    ensures r.Some? ==> r.value.id == id
    ensures r.Some? ==> exists i :: 0 <= i < |es| && es[i] == r.value && (forall j :: 0 <= j < i ==> es[j].id != id)
    ensures r.None? ==> forall i :: 0 <= i < |es| ==> es[i].id != id
    decreases |es|
  {
    if |es| == 0 then None
    else if es[0].id == id then Some(es[0])
    else
      var r := EntityById(es[1..], id);
      assert forall i :: 0 < i < |es| ==> es[i] == es[1..][i - 1];
      r
  }

  /** get_by_id: the loop over the entities that returns the first match. */
  method GetById(crate: Crate, id: string) returns (r: Option<Entity>)
    ensures r == EntityById(crate.entities, id)
  {
    var es := crate.entities;
    var i := 0;
    while i < |es|
      invariant 0 <= i <= |es|
      invariant EntityById(es[i..], id) == EntityById(es, id)
    {
      assert es[i..][1..] == es[i + 1..];
      if es[i].id == id {
        return Some(es[i]);
      }
      i := i + 1;
    }
    return None;
  }

  // get_objects

  function PartIds(ps: seq<Part>): (r: seq<string>)
    ensures |r| == |ps|
    ensures forall k :: 0 <= k < |ps| ==> r[k] == ps[k].id
  {
    seq(|ps|, k requires 0 <= k < |ps| => ps[k].id)
  }

  /** The ids an object entry contributes: its parts' ids for a composite,
      its own id otherwise. */
  function EntryIds(o: ObjectEntry): seq<string> {
    if o.hasPart.Some? then PartIds(o.hasPart.value) else [o.id]
  }

  /** The flattened object ids, in object order and part order. */
  function ObjectIds(os: seq<ObjectEntry>): seq<string>
    decreases |os|
  {
    if |os| == 0 then [] else ObjectIds(os[..|os| - 1]) + EntryIds(os[|os| - 1])
  }

  /** An id is among the flattened ids exactly when it is the id of a plain
      object or of a part of a composite one. */
  lemma {:induction false} ObjectIdsMembers(os: seq<ObjectEntry>, x: string)
    ensures x in ObjectIds(os) <==> exists i :: 0 <= i < |os| && x in EntryIds(os[i])
    decreases |os|
  {
    if |os| > 0 {
      var init := os[..|os| - 1];
      ObjectIdsMembers(init, x);
      if exists i :: 0 <= i < |os| && x in EntryIds(os[i]) {
        var i :| 0 <= i < |os| && x in EntryIds(os[i]);
        if i < |os| - 1 {
          assert init[i] == os[i];
        }
      }
      if exists i :: 0 <= i < |init| && x in EntryIds(init[i]) {
        var i :| 0 <= i < |init| && x in EntryIds(init[i]);
        assert os[i] == init[i];
      }
    }
  }

  /** The CreateAction, or the TypeError of `"object" in None` when the
      crate has none. */
  function ActionOf(crate: Crate): (r: Result<Action>)
    ensures r.Ok? <==> crate.action.Some?
  {
    if crate.action.Some? then Ok(crate.action.value) else Err(TypeError)
  }

  /** What get_objects returns: the flattened object ids, [] when the
      CreateAction has no object property. */
  function Objects(crate: Crate): Result<seq<string>> {
    if crate.action.None? then Err(TypeError)
    else if crate.action.value.objects.None? then Ok([])
    else Ok(ObjectIds(crate.action.value.objects.value))
  }

  /** get_objects(crate) */
  method GetObjects(crate: Crate) returns (r: Result<seq<string>>)
    ensures r == Objects(crate)
  {
    var act := ActionOf(crate);
    if act.Err? {
      return Err(act.error);
    }
    if act.value.objects.None? {
      return Ok([]);
    }
    var os := act.value.objects.value;
    var objects: seq<string> := [];
    var i := 0;
    while i < |os|
      invariant 0 <= i <= |os|
      invariant objects == ObjectIds(os[..i])
    {
      assert os[..i + 1][..i] == os[..i];
      var val := os[i];
      if val.hasPart.Some? {
        var parts := val.hasPart.value;
        var j := 0;
        ghost var before := objects;
        while j < |parts|
          invariant 0 <= j <= |parts|
          invariant objects == before + PartIds(parts[..j])
        {
          assert PartIds(parts[..j + 1]) == PartIds(parts[..j]) + [parts[j].id];
          objects := objects + [parts[j].id];
          j := j + 1;
        }
        assert parts[..j] == parts;
      } else {
        objects := objects + [val.id];
      }
      i := i + 1;
    }
    assert os[..i] == os;
    return Ok(objects);
  }

  // get_results_dict

  predicate AllResultsNamed(rs: seq<ResultEntry>) {
    forall i :: 0 <= i < |rs| ==> rs[i].name.Some?
  }

  /** The (name, id) pairs of the results, in catalogue order. */
  function ResultPairs(rs: seq<ResultEntry>): (ps: seq<(string, string)>)
    requires AllResultsNamed(rs)
    ensures |ps| == |rs|
    ensures forall i :: 0 <= i < |rs| ==> ps[i] == (rs[i].name.value, rs[i].id)
  {
    seq(|rs|, i requires 0 <= i < |rs| => (rs[i].name.value, rs[i].id))
  }

  /** The loop `results[result["name"]] = result.id`, which raises KeyError
      at the first result without a name. */
  method FillResults(rs: seq<ResultEntry>) returns (r: Result<Dict<string, string>>)
    ensures r.Ok? <==> AllResultsNamed(rs)
    ensures r.Ok? ==> r.value == FromPairs(ResultPairs(rs))
    ensures r.Err? ==> r == Err(KeyError("name"))
  {
    var results: Dict<string, string> := [];
    var i := 0;
    while i < |rs|
      invariant 0 <= i <= |rs|
      invariant AllResultsNamed(rs[..i])
      invariant results == FromPairs(ResultPairs(rs[..i]))
    {
      if rs[i].name.None? {
        return Err(KeyError("name"));
      }
      assert AllResultsNamed(rs[..i + 1]);
      assert rs[..i + 1][..i] == rs[..i];
      assert ResultPairs(rs[..i + 1])[..i] == ResultPairs(rs[..i]);
      results := Put(results, rs[i].name.value, rs[i].id);
      i := i + 1;
    }
    assert rs[..i] == rs;
    return Ok(results);
  }

  /** What get_results_dict returns: result name to result id, {} when
      the CreateAction has no result property, KeyError at a result
      without a name. */
  function ResultsDict(crate: Crate): Result<Dict<string, string>> {
    if crate.action.None? then Err(TypeError)
    else if crate.action.value.results.None? then Ok([])
    else
      var rs := crate.action.value.results.value;
      if AllResultsNamed(rs) then Ok(FromPairs(ResultPairs(rs))) else Err(KeyError("name"))
  }

  /** get_results_dict(crate) */
  method GetResultsDict(crate: Crate) returns (r: Result<Dict<string, string>>)
    ensures r == ResultsDict(crate)
  {
    var act := ActionOf(crate);
    if act.Err? {
      return Err(act.error);
    }
    if act.value.results.None? {
      return Ok([]);
    }
    r := FillResults(act.value.results.value);
  }

  /** A result name maps to the id of the last result carrying it: later
      duplicates overwrite earlier ones. */
  lemma {:induction false} ResultsDictLookup(rs: seq<ResultEntry>, name: string)
    requires AllResultsNamed(rs)
    ensures UniqueKeys(FromPairs(ResultPairs(rs)))
    ensures Get(FromPairs(ResultPairs(rs)), name) == LastValue(ResultPairs(rs), name)
    ensures HasKey(FromPairs(ResultPairs(rs)), name) <==> exists i :: 0 <= i < |rs| && rs[i].name == Some(name)
  {
    var ps := ResultPairs(rs);
    FromPairsGet(ps);
    LastValueSome(ps, name);
    if exists i :: 0 <= i < |rs| && rs[i].name == Some(name) {
      var i :| 0 <= i < |rs| && rs[i].name == Some(name);
      assert ps[i].0 == name;
    }
  }

  // get_objects_dict

  /** get_objects_dict reads the name of every part of a composite object
      and of every plain object. */
  predicate EntryNamed(o: ObjectEntry) {
    if o.hasPart.Some? then forall k :: 0 <= k < |o.hasPart.value| ==> o.hasPart.value[k].name.Some?
    else o.name.Some?
  }

  predicate AllObjectsNamed(os: seq<ObjectEntry>) {
    forall i :: 0 <= i < |os| ==> EntryNamed(os[i])
  }

  /** The ((name, id), id) items one object entry contributes. */
  function EntryItems(o: ObjectEntry): seq<((string, string), string)>
    requires EntryNamed(o)
  {
    if o.hasPart.Some? then PartItems(o.hasPart.value)
    else [((o.name.value, o.id), o.id)]
  }

  /** The items of get_objects_dict in the order they are stored. */
  function ObjectItems(os: seq<ObjectEntry>): seq<((string, string), string)>
    requires AllObjectsNamed(os)
    decreases |os|
  {
    if |os| == 0 then []
    else
      NamedPrefix(os, |os| - 1);
      ObjectItems(os[..|os| - 1]) + EntryItems(os[|os| - 1])
  }

  lemma {:induction false} NamedPrefix(os: seq<ObjectEntry>, n: nat)
    requires n <= |os| && AllObjectsNamed(os)
    ensures AllObjectsNamed(os[..n])
  {
    assert forall i :: 0 <= i < n ==> os[..n][i] == os[i];
  }

  lemma {:induction false} ObjectItemsSnoc(os: seq<ObjectEntry>, i: nat)
    requires i < |os| && AllObjectsNamed(os[..i]) && EntryNamed(os[i])
    ensures AllObjectsNamed(os[..i + 1])
    ensures ObjectItems(os[..i + 1]) == ObjectItems(os[..i]) + EntryItems(os[i])
  {
    var p := os[..i + 1];
    assert forall j :: 0 <= j < i ==> p[j] == os[..i][j];
    assert p[i] == os[i];
    assert p[..i] == os[..i];
  }

  /** Every item of the objects dict maps a (name, id) key to that id. */
  lemma {:induction false} ObjectItemsShape(os: seq<ObjectEntry>)
    requires AllObjectsNamed(os)
    ensures forall m :: 0 <= m < |ObjectItems(os)| ==> ObjectItems(os)[m].0.1 == ObjectItems(os)[m].1
    decreases |os|
  {
    if |os| > 0 {
      NamedPrefix(os, |os| - 1);
      ObjectItemsShape(os[..|os| - 1]);
    }
  }

  /** FromPairs over a list whose every value is its key's id keeps that
      shape, so get_objects_dict maps every (name, id) key to id. */
  lemma {:induction false} FromPairsKeepsShape(ps: seq<((string, string), string)>)
    requires forall m :: 0 <= m < |ps| ==> ps[m].0.1 == ps[m].1
    ensures forall m :: 0 <= m < |FromPairs(ps)| ==> FromPairs(ps)[m].0.1 == FromPairs(ps)[m].1
    decreases |ps|
  {
    if |ps| > 0 {
      FromPairsKeepsShape(ps[..|ps| - 1]);
      var d := FromPairs(ps[..|ps| - 1]);
      var x := ps[|ps| - 1];
      var i := KeyIndex(d, x.0);
      assert forall m :: 0 <= m < |Put(d, x.0, x.1)| ==>
        Put(d, x.0, x.1)[m] == (if m == i then x else if m < |d| then d[m] else x);
    }
  }

  /** The inner loop over one object entry. */
  method AddEntry(objects: Dict<(string, string), string>, o: ObjectEntry)
    returns (r: Result<Dict<(string, string), string>>)
    ensures r.Ok? <==> EntryNamed(o)
    ensures r.Ok? ==> r.value == FromPairsOnto(objects, EntryItems(o))
    ensures r.Err? ==> r == Err(KeyError("name"))
  {
    if o.hasPart.Some? {
      var ps := o.hasPart.value;
      var d := objects;
      var k := 0;
      while k < |ps|
        invariant 0 <= k <= |ps|
        invariant forall j :: 0 <= j < k ==> ps[j].name.Some?
        invariant d == FromPairsOnto(objects, PartItems(ps[..k]))
      {
        if ps[k].name.None? {
          return Err(KeyError("name"));
        }
        assert PartItems(ps[..k + 1]) == PartItems(ps[..k]) + [((ps[k].name.value, ps[k].id), ps[k].id)];
        FromPairsOntoSnoc(objects, PartItems(ps[..k]), ((ps[k].name.value, ps[k].id), ps[k].id));
        d := Put(d, (ps[k].name.value, ps[k].id), ps[k].id);
        k := k + 1;
      }
      assert ps[..k] == ps;
      return Ok(d);
    } else {
      if o.name.None? {
        return Err(KeyError("name"));
      }
      FromPairsOntoSnoc(objects, [], ((o.name.value, o.id), o.id));
      return Ok(Put(objects, (o.name.value, o.id), o.id));
    }
  }

  function PartItems(ps: seq<Part>): (items: seq<((string, string), string)>)
    requires forall k :: 0 <= k < |ps| ==> ps[k].name.Some?
    ensures |items| == |ps|
    ensures forall k :: 0 <= k < |ps| ==> items[k] == ((ps[k].name.value, ps[k].id), ps[k].id)
  {
    seq(|ps|, k requires 0 <= k < |ps| => ((ps[k].name.value, ps[k].id), ps[k].id))
  }

  /** The dict the loop `d[k] = v` over ps builds from d. */
  function FromPairsOnto<K(==), V>(d: Dict<K, V>, ps: seq<(K, V)>): Dict<K, V>
    decreases |ps|
  {
    if |ps| == 0 then d
    else Put(FromPairsOnto(d, ps[..|ps| - 1]), ps[|ps| - 1].0, ps[|ps| - 1].1)
  }

  lemma {:induction false} FromPairsOntoSnoc<K, V>(d: Dict<K, V>, ps: seq<(K, V)>, x: (K, V))
    ensures FromPairsOnto(d, ps + [x]) == Put(FromPairsOnto(d, ps), x.0, x.1)
  {
    assert (ps + [x])[..|ps|] == ps;
  }

  lemma {:induction false} FromPairsOntoAppend<K, V>(ps: seq<(K, V)>, qs: seq<(K, V)>)
    ensures FromPairsOnto(FromPairs(ps), qs) == FromPairs(ps + qs)
    decreases |qs|
  {
    if |qs| == 0 {
      assert ps + qs == ps;
    } else {
      FromPairsOntoAppend(ps, qs[..|qs| - 1]);
      assert (ps + qs)[..|ps + qs| - 1] == ps + qs[..|qs| - 1];
    }
  }

  /** What get_objects_dict returns: (name, id) to id for every plain
      object and every part of a composite one, {} without an object
      property, KeyError at an entry without a name. */
  function ObjectsDict(crate: Crate): Result<Dict<(string, string), string>> {
    if crate.action.None? then Err(TypeError)
    else if crate.action.value.objects.None? then Ok([])
    else
      var os := crate.action.value.objects.value;
      if AllObjectsNamed(os) then Ok(FromPairs(ObjectItems(os))) else Err(KeyError("name"))
  }

  /** get_objects_dict(crate) */
  method GetObjectsDict(crate: Crate) returns (r: Result<Dict<(string, string), string>>)
    ensures r == ObjectsDict(crate)
  {
    var act := ActionOf(crate);
    if act.Err? {
      return Err(act.error);
    }
    if act.value.objects.None? {
      return Ok([]);
    }
    var os := act.value.objects.value;
    var objects: Dict<(string, string), string> := [];
    var i := 0;
    while i < |os|
      invariant 0 <= i <= |os|
      invariant AllObjectsNamed(os[..i])
      invariant objects == FromPairs(ObjectItems(os[..i]))
    {
      var step := AddEntry(objects, os[i]);
      if step.Err? {
        assert !EntryNamed(os[i]);
        return Err(step.error);
      }
      ObjectItemsSnoc(os, i);
      FromPairsOntoAppend(ObjectItems(os[..i]), EntryItems(os[i]));
      objects := step.value;
      i := i + 1;
    }
    assert os[..i] == os;
    return Ok(objects);
  }

  /** The dict get_objects_dict returns has distinct keys, maps every
      (name, id) key to that id, and holds a key exactly when a plain
      object or a part of a composite one has that name and id. */
  lemma {:induction false} ObjectsDictShape(crate: Crate, key: (string, string))
    requires ObjectsDict(crate).Ok?
    ensures var d := ObjectsDict(crate).value;
      UniqueKeys(d)
      && (forall m :: 0 <= m < |d| ==> d[m].0.1 == d[m].1)
      && (HasKey(d, key) <==> exists m :: 0 <= m < |ObjectItemsOf(crate)| && ObjectItemsOf(crate)[m].0 == key)
  {
    var items := ObjectItemsOf(crate);
    FromPairsGet(items);
    LastValueSome(items, key);
    if crate.action.value.objects.Some? {
      ObjectItemsShape(crate.action.value.objects.value);
    }
    FromPairsKeepsShape(items);
  }

  /** The items get_objects_dict stores, in order. */
  function ObjectItemsOf(crate: Crate): seq<((string, string), string)>
    requires ObjectsDict(crate).Ok?
  {
    if crate.action.value.objects.None? then [] else ObjectItems(crate.action.value.objects.value)
  }

  // key_exists_with_first_element

  /** any(key[0] == first for key in d) */
  function KeyExistsWithFirst<V>(d: Dict<(string, string), V>, first: string): (b: bool)
    ensures b <==> exists i :: 0 <= i < |d| && d[i].0.0 == first
    decreases |d|
  {
    if |d| == 0 then false
    else if d[0].0.0 == first then true
    else
      var b := KeyExistsWithFirst(d[1..], first);
      assert forall i :: 0 < i < |d| ==> d[i] == d[1..][i - 1];
      b
  }

  // get_file_names

  /** The (file, os.path.join(root, file)) pairs of a walk, in walk order. */
  function WalkPairs(w: seq<(string, string)>): (ps: seq<(string, string)>)
    ensures |ps| == |w|
    ensures forall i :: 0 <= i < |w| ==> ps[i] == (w[i].1, PathJoin(w[i].0, w[i].1))
  {
    seq(|w|, i requires 0 <= i < |w| => (w[i].1, PathJoin(w[i].0, w[i].1)))
  }

  /** get_file_names (also reproducibility_methods/utilsr.py): each file name
      the walk meets, mapped to its full path. */
  method GetFileNames(d: Disk, folder: string) returns (names: Dict<string, string>)
    ensures names == FromPairs(WalkPairs(Walk(d, folder)))
  {
    var w := Walk(d, folder);
    names := [];
    var i := 0;
    while i < |w|
      invariant 0 <= i <= |w|
      invariant names == FromPairs(WalkPairs(w[..i]))
    {
      assert WalkPairs(w[..i + 1])[..i] == WalkPairs(w[..i]);
      names := Put(names, w[i].1, PathJoin(w[i].0, w[i].1));
      i := i + 1;
    }
    assert w[..i] == w;
  }

  /** A file name maps to the path of the last file the walk meets under
      that name, and a plain name's path has that name as its basename. */
  lemma {:induction false} FileNamesLookup(w: seq<(string, string)>, name: string)
    ensures UniqueKeys(FromPairs(WalkPairs(w)))
    ensures Get(FromPairs(WalkPairs(w)), name) == LastValue(WalkPairs(w), name)
    ensures HasKey(FromPairs(WalkPairs(w)), name) <==> exists i :: 0 <= i < |w| && w[i].1 == name
    ensures name != "" && '/' !in name && LastValue(WalkPairs(w), name).Some? ==>
      Basename(LastValue(WalkPairs(w), name).value) == name
    decreases |w|
  {
    var ps := WalkPairs(w);
    FromPairsGet(ps);
    LastValueSome(ps, name);
    if exists i :: 0 <= i < |w| && w[i].1 == name {
      var i :| 0 <= i < |w| && w[i].1 == name;
      assert ps[i].0 == name;
    }
    if |w| > 0 {
      var init := w[..|w| - 1];
      assert WalkPairs(w)[..|w| - 1] == WalkPairs(init);
      FileNamesLookup(init, name);
      if name != "" && '/' !in name && w[|w| - 1].1 == name {
        PathJoinBasename(w[|w| - 1].0, name);
      }
    }
  }

  // get_previous_flags

  /** The flags of a recorded command a re-execution repeats: in order,
      every flag but the provenance one. */
  function PreviousFlags(ws: seq<string>): seq<string>
    decreases |ws|
  {
    if |ws| == 0 then []
    else
      var last := if KindOf(ws[|ws| - 1]) == Flag then [ws[|ws| - 1]] else [];
      PreviousFlags(ws[..|ws| - 1]) + last
  }

  /** A token is kept exactly when it occurs and is a flag other than the
      provenance one. */
  lemma {:induction false} PreviousFlagsMembers(ws: seq<string>, x: string)
    ensures x in PreviousFlags(ws) <==> x in ws && IsFlag(x) && !IsProvenance(x)
    decreases |ws|
  {
    if |ws| > 0 {
      var init := ws[..|ws| - 1];
      PreviousFlagsMembers(init, x);
      assert ws == init + [ws[|ws| - 1]];
    }
  }

  /** The command file of a crate. */
  function CommandFile(cratePath: string): string {
    PathJoin(cratePath, "compss_submission_command_line.txt")
  }

  /** get_previous_flags: the first line of the command file, stripped and
      split on whitespace, filtered to its flags. */
  method GetPreviousFlags(d: Disk, cratePath: string) returns (r: Result<seq<string>>)
    ensures var line := FirstLine(d, CommandFile(cratePath));
      if line.Err? then r == Err(line.error) else r == Ok(PreviousFlags(Words(Strip(line.value))))
  {
    var line := FirstLine(d, CommandFile(cratePath));
    if line.Err? {
      return Err(line.error);
    }
    var ws := Words(Strip(line.value));
    var flags: seq<string> := [];
    var i := 0;
    while i < |ws|
      invariant 0 <= i <= |ws|
      invariant flags == PreviousFlags(ws[..i])
    {
      assert ws[..i + 1][..i] == ws[..i];
      if IsFlag(ws[i]) && !IsProvenance(ws[i]) {
        flags := flags + [ws[i]];
      }
      i := i + 1;
    }
    assert ws[..i] == ws;
    return Ok(flags);
  }

  // check_slurm_cluster

  /** What subprocess.run(['squeue']) gave: a finished run with its exit
      code and output, or the exception it raised with its message. */
  datatype SqueueRun = Completed(returncode: int, stdout: string) | Raised(message: string)

  /** check_slurm_cluster of utils.py: (True, stdout) when squeue exits 0,
      (False, ...) otherwise. */
  function CheckSlurmCluster(run: SqueueRun): (r: (bool, string))
    ensures r.0 <==> run.Completed? && run.returncode == 0
    ensures r.0 ==> r.1 == run.stdout
    ensures run.Raised? ==> r.1 == run.message
    ensures run.Completed? && run.returncode != 0 ==>
      r.1 == "squeue command failed without raising an exception"
  {
    match run
    case Raised(m) => (false, m)
    case Completed(code, out) =>
      if code == 0 then (true, out) else (false, "squeue command failed without raising an exception")
  }

  // get_status_symbol and wrap_text

  /** A row of the status table the verifiers build: the file's name and
      path, its existence (or, in the DPF verifier, modification-date)
      status, and its size status. */
  datatype FileRecord = FileRecord(name: string, path: string, mark: int, size: int)

  /** The names of a list of rows. */
  function Names(rs: seq<FileRecord>): (ns: seq<string>)
    ensures |ns| == |rs|
  {
    seq(|rs|, m requires 0 <= m < |rs| => rs[m].name)
  }

  /** The names of a suffix split at q. */
  lemma {:induction false} NamesSplit(rs: seq<FileRecord>, p: nat, q: nat)
    requires p <= q <= |rs|
    ensures Names(rs[p..]) == Names(rs[p..q]) + Names(rs[q..])
  {
    assert rs[p..][..q - p] == rs[p..q];
  }

  /** Two prefix extensions in a row are one. */
  lemma {:induction false} RowsChain(a: seq<FileRecord>, b: seq<FileRecord>, c: seq<FileRecord>)
    requires |a| <= |b| <= |c| && b[..|a|] == a && c[..|b|] == b
    ensures c[..|a|] == a && c[|a|..|b|] == b[|a|..]
    ensures Names(c[|a|..]) == Names(b[|a|..]) + Names(c[|b|..])
  {
    assert c[..|b|][..|a|] == c[..|a|];
    assert c[..|b|][|a|..] == c[|a|..|b|];
    NamesSplit(c, |a|, |b|);
  }

  const Check := "✅"
  const Cross := "❌"
  const Dash := "—"

  /** The symbols of the status table: existence 1 is a check mark and
      anything else a cross; size 1 is a check mark, 0 a cross, anything
      else a dash. */
  function StatusSymbols(exists_: int, size: int): (r: (string, string))
    ensures r.0 == Check <==> exists_ == 1
    ensures r.0 == Cross <==> exists_ != 1
    ensures r.1 == Check <==> size == 1
    ensures r.1 == Cross <==> size == 0
    ensures r.1 == Dash <==> size != 0 && size != 1
  {
    (if exists_ == 1 then Check else Cross,
     if size == 1 then Check else if size == 0 then Cross else Dash)
  }

  /** The pieces text[i:i+width] for i in range(0, len(text), width). */
  function Chunks(text: string, width: nat): (cs: seq<string>)
    requires width > 0
    decreases |text|
  {
    if |text| == 0 then []
    else if |text| <= width then [text]
    else [text[..width]] + Chunks(text[width..], width)
  }

  function Concat(cs: seq<string>): string
    decreases |cs|
  {
    if |cs| == 0 then "" else cs[0] + Concat(cs[1..])
  }

  /** The chunks are non-empty, at most width long, and together are the
      text: every piece but the last is exactly width long. */
  lemma {:induction false} ChunksSpec(text: string, width: nat)
    requires width > 0
    ensures Concat(Chunks(text, width)) == text
    ensures forall k :: 0 <= k < |Chunks(text, width)| ==> 0 < |Chunks(text, width)[k]| <= width
    ensures forall k :: 0 <= k < |Chunks(text, width)| - 1 ==> |Chunks(text, width)[k]| == width
    decreases |text|
  {
    if |text| > width {
      ChunksSpec(text[width..], width);
      var cs := Chunks(text, width);
      assert cs[1..] == Chunks(text[width..], width);
      assert text[..width] + text[width..] == text;
    }
  }

  /** wrap_text: the chunks joined with newlines. A width of 0 is the
      ValueError of range(); a negative width makes the range empty. */
  function WrapText(text: string, width: int): (r: Result<string>)
    ensures width == 0 <==> r.Err?
    ensures width < 0 ==> r == Ok("")
    ensures width > 0 ==> r == Ok(JoinWith(Chunks(text, width), '\n'))
  {
    if width == 0 then Err(ValueError("range() arg 3 must not be zero"))
    else if width < 0 then Ok("")
    else Ok(JoinWith(Chunks(text, width), '\n'))
  }
}
