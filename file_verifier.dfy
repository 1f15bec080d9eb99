/** files_verifier of file_verifier.py: the check of a crate recorded with
    data persistence on, whose inputs are staged inside the crate. It
    builds one status-table row for the instrument and one per local
    object, and raises when a size differs from the metadata or a file is
    missing. */
module FileVerifier {
  import opened Common
  import opened Paths
  import opened Dicts
  import opened FileSystems
  import opened Catalog

  /** The state the function builds: the rows, the two flags and the two
      lists its final raise reports. */
  datatype FvState = FvState(rows: seq<FileRecord>, sizeOk: bool, verified: bool,
                             tempSize: seq<string>, tempPath: seq<string>)

  /** What a call ends with, when it does not raise before the table: the
      early return on an empty object dict, or the table and the final
      verdict. */
  datatype Verification = NoObjects | Checked(table: seq<FileRecord>, verdict: Outcome)

  /** A disk on which only existing paths have a size, as on a real
      filesystem. */
  predicate SizesExist(d: Disk) {
    forall p :: p in d.sizes ==> p in d.entries
  }

  // The instrument

  /** The instrument's part of files_verifier as written: a missing
      instrument gives the row (name, path, 0, 0), but a size mismatch then
      sets the row's size status to 1, the status of a matching size. */
  function InstrumentStateAsWritten(d: Disk, crate: Crate, cratePath: string, inst: string): Result<FvState> {
    var ip := PathJoin(cratePath, inst);
    var missing := !Exists(d, ip);
    var size := GetSize(d, ip);
    if size.Err? then Err(size.error)
    else
      var e := EntityById(crate.entities, inst);
      if e.None? then Err(TypeError)
      else if e.value.contentSize.None? then Err(KeyError("contentSize"))
      else
        var bad := size.value != e.value.contentSize.value;
        var row := FileRecord(inst, ip, if missing then 0 else 1, if bad then 1 else if missing then 0 else 1);
        Ok(FvState([row], !bad, !missing, if bad then [ip] else [], if missing then [ip] else []))
  }

  /** The instrument's part of files_verifier with a size mismatch shown as
      one, status 0, as the object loop and the DPF verifier do. */
  function InstrumentState(d: Disk, crate: Crate, cratePath: string, inst: string): Result<FvState> {
    var ip := PathJoin(cratePath, inst);
    var missing := !Exists(d, ip);
    var size := GetSize(d, ip);
    if size.Err? then Err(size.error)
    else
      var e := EntityById(crate.entities, inst);
      if e.None? then Err(TypeError)
      else if e.value.contentSize.None? then Err(KeyError("contentSize"))
      else
        var bad := size.value != e.value.contentSize.value;
        var row := FileRecord(inst, ip, if missing then 0 else 1, if bad || missing then 0 else 1);
        Ok(FvState([row], !bad, !missing, if bad then [ip] else [], if missing then [ip] else []))
  }

  /** A crate whose instrument main.py is 2 bytes long on disk but recorded
      as 1 byte. */
  function MismatchDisk(): Disk {
    Disk({"crate/main.py"}, map["crate/main.py" := 2], map[], {}, map[], map[], map[])
  }

  function MismatchCrate(): Crate {
    Crate([Entity("main.py", Some("main.py"), Some(1), None)], Some(Action(Some("main.py"), None, None)))
  }

  /** As written, the instrument row of that crate shows a matching size
      while its path is listed among the size mismatches. */
  lemma {:induction false} InstrumentMismatchShownAsMatch()
    ensures var st := InstrumentStateAsWritten(MismatchDisk(), MismatchCrate(), "crate", "main.py");
      st.Ok? && st.value.rows[0].size == 1 && StatusSymbols(st.value.rows[0].mark, st.value.rows[0].size).1 == Check
      && st.value.tempSize == ["crate/main.py"] && !st.value.sizeOk
  {
    assert "main.py"[0] == 'm' && "crate"[4..] == "e";
    assert PathJoin("crate", "main.py") == "crate/main.py";
    assert EntityById(MismatchCrate().entities, "main.py") == Some(MismatchCrate().entities[0]);
  }

  /** The corrected instrument row shows a size mismatch exactly when its
      path is listed as one, and an existing instrument is shown as
      included. */
  lemma {:induction false} InstrumentRowMatchesLists(d: Disk, crate: Crate, cratePath: string, inst: string)
    requires SizesExist(d) && InstrumentState(d, crate, cratePath, inst).Ok?
    ensures var st := InstrumentState(d, crate, cratePath, inst).value;
      var ip := PathJoin(cratePath, inst);
      Consistent(st) && st.rows[0].name == inst && st.rows[0].path == ip && st.rows[0].mark == 1
      && (st.rows[0].size == 1 <==> d.sizes[ip] == EntityById(crate.entities, inst).value.contentSize.value)
      && (st.rows[0].size == 0 || st.rows[0].size == 1)
  {
    var st := InstrumentState(d, crate, cratePath, inst).value;
    assert st.rows[..0] == [];
  }

  /** The two versions differ only in the size status of an instrument
      whose size does not match. */
  lemma {:induction false} InstrumentVersions(d: Disk, crate: Crate, cratePath: string, inst: string)
    ensures InstrumentStateAsWritten(d, crate, cratePath, inst).Ok? <==> InstrumentState(d, crate, cratePath, inst).Ok?
    ensures InstrumentState(d, crate, cratePath, inst).Err? ==>
      InstrumentStateAsWritten(d, crate, cratePath, inst) == InstrumentState(d, crate, cratePath, inst)
    ensures InstrumentState(d, crate, cratePath, inst).Ok? ==>
      var w := InstrumentStateAsWritten(d, crate, cratePath, inst).value;
      var c := InstrumentState(d, crate, cratePath, inst).value;
      w.(rows := []) == c.(rows := []) && w.rows[0].mark == c.rows[0].mark
      && (w.rows[0].size != c.rows[0].size <==> !c.sizeOk)
  {
  }

  // The rows and the lists

  /** The paths of the rows shown as existing with a mismatched size. */
  function SizeBad(rs: seq<FileRecord>): seq<string>
    decreases |rs|
  {
    if |rs| == 0 then []
    else
      var r := rs[|rs| - 1];
      SizeBad(rs[..|rs| - 1]) + (if r.mark == 1 && r.size == 0 then [r.path] else [])
  }

  /** The paths of the rows shown as missing. */
  function MissingPaths(rs: seq<FileRecord>): seq<string>
    decreases |rs|
  {
    if |rs| == 0 then []
    else
      var r := rs[|rs| - 1];
      MissingPaths(rs[..|rs| - 1]) + (if r.mark == 0 then [r.path] else [])
  }

  /** A row's statuses are in range, and a missing file has no size. */
  predicate RowOk(r: FileRecord) {
    0 <= r.mark <= 1 && 0 <= r.size <= 2 && (r.mark == 0 ==> r.size == 0)
  }

  /** The flags and lists agree with the rows. */
  predicate Consistent(st: FvState) {
    st.tempSize == SizeBad(st.rows) && st.tempPath == MissingPaths(st.rows)
    && (st.sizeOk <==> st.tempSize == []) && (st.verified <==> st.tempPath == [])
    && forall m :: 0 <= m < |st.rows| ==> RowOk(st.rows[m])
  }

  /** The verdict the table's crosses call for: a size mismatch (with the
      missing files, if any) first, then the missing files. */
  function VerdictOf(rs: seq<FileRecord>): Outcome {
    if SizeBad(rs) != [] then Fail(SizeMismatch(SizeBad(rs), MissingPaths(rs)))
    else if MissingPaths(rs) != [] then Fail(FilesMissing(MissingPaths(rs)))
    else Pass
  }

  /** The final raise of files_verifier. */
  function Verdict(st: FvState): Outcome {
    if !st.sizeOk then Fail(SizeMismatch(st.tempSize, if st.verified then [] else st.tempPath))
    else if !st.verified then Fail(FilesMissing(st.tempPath))
    else Pass
  }

  lemma {:induction false} SizeBadEmpty(rs: seq<FileRecord>)
    ensures SizeBad(rs) == [] <==> forall m :: 0 <= m < |rs| ==> !(rs[m].mark == 1 && rs[m].size == 0)
    decreases |rs|
  {
    if |rs| > 0 {
      var init := rs[..|rs| - 1];
      SizeBadEmpty(init);
      assert forall m :: 0 <= m < |init| ==> init[m] == rs[m];
    }
  }

  lemma {:induction false} MissingPathsEmpty(rs: seq<FileRecord>)
    ensures MissingPaths(rs) == [] <==> forall m :: 0 <= m < |rs| ==> rs[m].mark != 0
    decreases |rs|
  {
    if |rs| > 0 {
      var init := rs[..|rs| - 1];
      MissingPathsEmpty(init);
      assert forall m :: 0 <= m < |init| ==> init[m] == rs[m];
    }
  }

  /** On consistent state the final raise is the verdict of the rows, and
      it passes exactly when every row shows an existing file whose size is
      not a mismatch. */
  lemma {:induction false} VerdictMatchesTable(st: FvState)
    requires Consistent(st)
    ensures Verdict(st) == VerdictOf(st.rows)
    ensures Verdict(st) == Pass <==>
      forall m :: 0 <= m < |st.rows| ==> st.rows[m].mark == 1 && st.rows[m].size != 0
  {
    SizeBadEmpty(st.rows);
    MissingPathsEmpty(st.rows);
    if Verdict(st) != Pass {
      assert !st.sizeOk || !st.verified;
    } else {
      forall m | 0 <= m < |st.rows| ensures st.rows[m].mark == 1 && st.rows[m].size != 0 {
        assert RowOk(st.rows[m]);
      }
    }
  }

  // The object loop

  /** The remote guard `not remote_dataset_dict and name[0] in
      remote_dataset_dict` and the http guard: since the first needs an
      empty dict to hold the name, only the second can skip an object. */
  function Skips(item: ((string, string), string), remoteKeys: set<string>): (b: bool)
    ensures b <==> StartsWith(item.1, "http")
  {
    (remoteKeys == {} && item.0.0 in remoteKeys) || StartsWith(item.1, "http")
  }

  /** The row of one object: (name, path, 0, 0) for a missing file, else a
      size status of 1 or 0 against a recorded contentSize, 2 without one.
      The row's path is the object id joined to the crate path. */
  function ObjectRow(d: Disk, crate: Crate, cratePath: string, item: ((string, string), string))
    : (r: Result<FileRecord>)
    ensures r.Err? ==> r == Err(TypeError) || r == Err(OsError(PathJoin(cratePath, item.1)))
    ensures r.Ok? ==> RowOk(r.value) && r.value.name == item.0.0 && r.value.path == PathJoin(cratePath, item.1)
    ensures r.Ok? ==> (r.value.mark == 0 <==> !Exists(d, PathJoin(cratePath, item.1)))
  {
    var fp := PathJoin(cratePath, item.1);
    if !Exists(d, fp) then Ok(FileRecord(item.0.0, fp, 0, 0))
    else
      var e := EntityById(crate.entities, item.1);
      if e.None? then Err(TypeError)
      else if e.value.contentSize.None? then Ok(FileRecord(item.0.0, fp, 1, 2))
      else
        var actual := GetSize(d, fp);
        if actual.Err? then Err(actual.error)
        else Ok(FileRecord(item.0.0, fp, 1, if actual.value != e.value.contentSize.value then 0 else 1))
  }

  /** The state after appending a row: a missing file clears the verified
      flag and is listed, a size mismatch clears the size flag and is
      listed. */
  function AddRow(st: FvState, row: FileRecord): (st': FvState)
    ensures st'.rows == st.rows + [row]
  {
    st.(rows := st.rows + [row],
        sizeOk := st.sizeOk && !(row.mark == 1 && row.size == 0),
        verified := st.verified && row.mark != 0,
        tempSize := st.tempSize + (if row.mark == 1 && row.size == 0 then [row.path] else []),
        tempPath := st.tempPath + (if row.mark == 0 then [row.path] else []))
  }

  /** One iteration of the object loop. */
  function ObjectStep(d: Disk, crate: Crate, cratePath: string, remoteKeys: set<string>,
                      item: ((string, string), string), st: FvState): (r: Result<FvState>)
    ensures r.Err? ==> r == Err(TypeError) || r == Err(OsError(PathJoin(cratePath, item.1)))
  {
    if Skips(item, remoteKeys) then Ok(st)
    else
      var row := ObjectRow(d, crate, cratePath, item);
      if row.Err? then Err(row.error) else Ok(AddRow(st, row.value))
  }

  /** The object loop from item i on. */
  function VerifyFrom(d: Disk, crate: Crate, cratePath: string, remoteKeys: set<string>,
                      items: Dict<(string, string), string>, i: nat, st: FvState): Result<FvState>
    requires i <= |items|
    decreases |items| - i
  {
    if i == |items| then Ok(st)
    else
      var step := ObjectStep(d, crate, cratePath, remoteKeys, items[i], st);
      if step.Err? then Err(step.error)
      else VerifyFrom(d, crate, cratePath, remoteKeys, items, i + 1, step.value)
  }

  /** files_verifier(crate_path, instrument, objects, remote_dataset_dict),
      with the instrument size status corrected. */
  function FilesVerifierSpec(d: Disk, crate: Crate, cratePath: string, inst: string,
                             items: Dict<(string, string), string>, remoteKeys: set<string>): Result<Verification>
  {
    var st := InstrumentState(d, crate, cratePath, inst);
    if st.Err? then Err(st.error)
    else if |items| == 0 then Ok(NoObjects)
    else
      var fin := VerifyFrom(d, crate, cratePath, remoteKeys, items, 0, st.value);
      if fin.Err? then Err(fin.error)
      else Ok(Checked(fin.value.rows, Verdict(fin.value)))
  }

  /** The names of the objects the loop does not skip, in order. */
  function KeptNames(items: Dict<(string, string), string>): seq<string>
    decreases |items|
  {
    if |items| == 0 then []
    else (if StartsWith(items[0].1, "http") then [] else [items[0].0.0]) + KeptNames(items[1..])
  }

  lemma {:induction false} AppendRow(st: FvState, row: FileRecord)
    ensures SizeBad(st.rows + [row]) == SizeBad(st.rows) + (if row.mark == 1 && row.size == 0 then [row.path] else [])
    ensures MissingPaths(st.rows + [row]) == MissingPaths(st.rows) + (if row.mark == 0 then [row.path] else [])
  {
    var rs := st.rows + [row];
    assert rs[..|rs| - 1] == st.rows;
  }

  /** Adding a row and listing its path as its statuses call for keeps
      the state consistent. */
  lemma {:induction false} AppendKeeps(st: FvState, row: FileRecord)
    requires Consistent(st) && RowOk(row)
    ensures Consistent(AddRow(st, row))
  {
    var st' := AddRow(st, row);
    AppendRow(st, row);
    forall m | 0 <= m < |st'.rows| ensures RowOk(st'.rows[m]) {
      if m < |st.rows| {
        assert st'.rows[m] == st.rows[m];
      }
    }
  }

  /** One object keeps the state consistent and adds at most the row of
      that object. */
  lemma {:induction false} ObjectStepKeeps(d: Disk, crate: Crate, cratePath: string, remoteKeys: set<string>,
                                           item: ((string, string), string), st: FvState)
    requires Consistent(st) && ObjectStep(d, crate, cratePath, remoteKeys, item, st).Ok?
    ensures var st' := ObjectStep(d, crate, cratePath, remoteKeys, item, st).value;
      Consistent(st')
      && (StartsWith(item.1, "http") ==> st' == st)
      && (!StartsWith(item.1, "http") ==>
            |st'.rows| == |st.rows| + 1 && st'.rows[..|st.rows|] == st.rows
            && st'.rows[|st.rows|].name == item.0.0 && st'.rows[|st.rows|].path == PathJoin(cratePath, item.1))
      && |st.rows| <= |st'.rows| && st'.rows[..|st.rows|] == st.rows
      && Names(st'.rows[|st.rows|..]) == (if StartsWith(item.1, "http") then [] else [item.0.0])
  {
    if !StartsWith(item.1, "http") {
      var row := ObjectRow(d, crate, cratePath, item).value;
      AppendKeeps(st, row);
      var rs := st.rows + [row];
      assert rs[..|st.rows|] == st.rows;
      assert rs[|st.rows|..] == [row];
    } else {
      assert st.rows[|st.rows|..] == [];
    }
  }

  /** The kept names of a suffix, one item at a time. */
  lemma {:induction false} KeptNamesAt(items: Dict<(string, string), string>, i: nat)
    requires i < |items|
    ensures KeptNames(items[i..]) ==
      (if StartsWith(items[i].1, "http") then [] else [items[i].0.0]) + KeptNames(items[i + 1..])
  {
    assert items[i..][1..] == items[i + 1..];
  }

  /** The object loop keeps the state consistent and adds one row per
      object it does not skip, in order. */
  lemma {:induction false} VerifyFromKeeps(d: Disk, crate: Crate, cratePath: string, remoteKeys: set<string>,
                                           items: Dict<(string, string), string>, i: nat, st: FvState)
    requires i <= |items| && Consistent(st) && VerifyFrom(d, crate, cratePath, remoteKeys, items, i, st).Ok?
    ensures var out := VerifyFrom(d, crate, cratePath, remoteKeys, items, i, st).value;
      Consistent(out) && |st.rows| <= |out.rows| && out.rows[..|st.rows|] == st.rows
      && Names(out.rows[|st.rows|..]) == KeptNames(items[i..])
    decreases |items| - i
  {
    if i == |items| {
      assert st.rows[|st.rows|..] == [];
    } else {
      var st1 := ObjectStep(d, crate, cratePath, remoteKeys, items[i], st).value;
      ObjectStepKeeps(d, crate, cratePath, remoteKeys, items[i], st);
      VerifyFromKeeps(d, crate, cratePath, remoteKeys, items, i + 1, st1);
      KeptNamesAt(items, i);
      var out := VerifyFrom(d, crate, cratePath, remoteKeys, items, i + 1, st1).value;
      RowsChain(st.rows, st1.rows, out.rows);
    }
  }

  /** files_verifier's table starts with the instrument's row and then has
      one row per object that is not remote, in the dict's order; it raises
      exactly when the table shows a cross, listing in the size error the
      existing files whose size differs and in either error the missing
      files. */
  lemma {:induction false} FilesVerifierReport(d: Disk, crate: Crate, cratePath: string, inst: string,
                                               items: Dict<(string, string), string>, remoteKeys: set<string>)
    requires SizesExist(d)
    requires FilesVerifierSpec(d, crate, cratePath, inst, items, remoteKeys).Ok?
    ensures var v := FilesVerifierSpec(d, crate, cratePath, inst, items, remoteKeys).value;
      (v.NoObjects? <==> |items| == 0)
      && (v.Checked? ==>
            |v.table| > 0 && v.table[0] == InstrumentState(d, crate, cratePath, inst).value.rows[0]
            && Names(v.table[1..]) == KeptNames(items)
            && v.verdict == VerdictOf(v.table)
            && (v.verdict == Pass <==> forall m :: 0 <= m < |v.table| ==> v.table[m].mark == 1 && v.table[m].size != 0))
  {
    var st := InstrumentState(d, crate, cratePath, inst).value;
    InstrumentRowMatchesLists(d, crate, cratePath, inst);
    if |items| > 0 {
      CheckedTable(d, crate, cratePath, remoteKeys, items, st);
    }
  }

  /** The table and verdict after the object loop, started on the
      instrument's one-row state. */
  lemma {:induction false} CheckedTable(d: Disk, crate: Crate, cratePath: string, remoteKeys: set<string>,
                                        items: Dict<(string, string), string>, st: FvState)
    requires Consistent(st) && |st.rows| == 1 && VerifyFrom(d, crate, cratePath, remoteKeys, items, 0, st).Ok?
    ensures var fin := VerifyFrom(d, crate, cratePath, remoteKeys, items, 0, st).value;
      |fin.rows| > 0 && fin.rows[0] == st.rows[0] && Names(fin.rows[1..]) == KeptNames(items)
      && Verdict(fin) == VerdictOf(fin.rows)
      && (Verdict(fin) == Pass <==> forall m :: 0 <= m < |fin.rows| ==> fin.rows[m].mark == 1 && fin.rows[m].size != 0)
  {
    VerifyFromKeeps(d, crate, cratePath, remoteKeys, items, 0, st);
    assert items[0..] == items;
    var fin := VerifyFrom(d, crate, cratePath, remoteKeys, items, 0, st).value;
    assert fin.rows[0] == fin.rows[..1][0];
    VerdictMatchesTable(fin);
  }

  /** files_verifier(crate_path, instrument, objects, remote_dataset_dict),
      with the crate's metadata as a parameter, the keys of the remote
      dict for the dict, and without what it prints. */
  method FilesVerifier(d: Disk, crate: Crate, cratePath: string, inst: string,
                       items: Dict<(string, string), string>, remoteKeys: set<string>)
    returns (r: Result<Verification>)
    ensures r == FilesVerifierSpec(d, crate, cratePath, inst, items, remoteKeys)
  {
    var first := CheckInstrument(d, crate, cratePath, inst);
    if first.Err? {
      return Err(first.error);
    }
    var st := first.value;
    if |items| == 0 {
      return Ok(NoObjects);
    }
    ghost var whole := VerifyFrom(d, crate, cratePath, remoteKeys, items, 0, st);
    var i := 0;
    while i < |items|
      invariant 0 <= i <= |items|
      invariant VerifyFrom(d, crate, cratePath, remoteKeys, items, i, st) == whole
    {
      var step := VerifyItem(d, crate, cratePath, remoteKeys, items[i], st);
      if step.Err? {
        return Err(step.error);
      }
      st := step.value;
      i := i + 1;
    }
    var verdict: Outcome := Pass;
    if !st.sizeOk {
      if st.verified {
        verdict := Fail(SizeMismatch(st.tempSize, []));
      } else {
        verdict := Fail(SizeMismatch(st.tempSize, st.tempPath));
      }
    } else if !st.verified {
      verdict := Fail(FilesMissing(st.tempPath));
    }
    return Ok(Checked(st.rows, verdict));
  }

  /** The instrument's part of files_verifier, with the size status
      corrected. */
  method CheckInstrument(d: Disk, crate: Crate, cratePath: string, inst: string) returns (r: Result<FvState>)
    ensures r == InstrumentState(d, crate, cratePath, inst)
  {
    var verified, sizeOk := true, true;
    var tempSize: seq<string> := [];
    var tempPath: seq<string> := [];
    var instrumentPath := PathJoin(cratePath, inst);
    var instrumentTuple := FileRecord(inst, instrumentPath, 1, 1);
    if !Exists(d, instrumentPath) {
      verified := false;
      tempPath := tempPath + [instrumentPath];
      instrumentTuple := FileRecord(inst, instrumentPath, 0, 0);
    }
    var size := GetSize(d, instrumentPath);
    if size.Err? {
      return Err(size.error);
    }
    var entity := GetById(crate, inst);
    if entity.None? {
      return Err(TypeError);
    }
    if entity.value.contentSize.None? {
      return Err(KeyError("contentSize"));
    }
    if size.value != entity.value.contentSize.value {
      sizeOk := false;
      tempSize := tempSize + [instrumentPath];
      instrumentTuple := instrumentTuple.(size := 0);
    }
    ghost var bad := size.value != entity.value.contentSize.value;
    ghost var missing := !Exists(d, instrumentPath);
    assert instrumentTuple == FileRecord(inst, instrumentPath, if missing then 0 else 1, if bad || missing then 0 else 1);
    assert sizeOk == !bad && verified == !missing;
    assert tempSize == (if bad then [instrumentPath] else []);
    assert tempPath == (if missing then [instrumentPath] else []);
    return Ok(FvState([instrumentTuple], sizeOk, verified, tempSize, tempPath));
  }

  /** One pass of the object loop of files_verifier. */
  method VerifyItem(d: Disk, crate: Crate, cratePath: string, remoteKeys: set<string>,
                    item: ((string, string), string), st: FvState) returns (r: Result<FvState>)
    ensures r == ObjectStep(d, crate, cratePath, remoteKeys, item, st)
  {
    var (name, input) := item;
    if remoteKeys == {} && name.0 in remoteKeys {
      return Ok(st);
    }
    if StartsWith(input, "http") {
      return Ok(st);
    }
    var filePath := PathJoin(cratePath, input);
    var fileTuple := FileRecord(name.0, filePath, 1, 2);
    if !Exists(d, filePath) {
      fileTuple := FileRecord(name.0, filePath, 0, 0);
      assert st.tempSize + [] == st.tempSize;
      return Ok(st.(rows := st.rows + [fileTuple], verified := false, tempPath := st.tempPath + [filePath]));
    }
    var fileObject := GetById(crate, input);
    if fileObject.None? {
      return Err(TypeError);
    }
    var sizeOk, tempSize := st.sizeOk, st.tempSize;
    if fileObject.value.contentSize.Some? {
      var actual := GetSize(d, filePath);
      if actual.Err? {
        return Err(actual.error);
      }
      if actual.value != fileObject.value.contentSize.value {
        sizeOk := false;
        tempSize := tempSize + [PathJoin(cratePath, input)];
        fileTuple := fileTuple.(size := 0);
      } else {
        fileTuple := fileTuple.(size := 1);
      }
    }
    assert st.tempPath + [] == st.tempPath && st.tempSize + [] == st.tempSize;
    return Ok(st.(rows := st.rows + [fileTuple], sizeOk := sizeOk, tempSize := tempSize));
  }
}
