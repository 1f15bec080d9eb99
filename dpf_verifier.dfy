/** The checks data_persistance_false.py runs on a crate recorded with data
    persistence off: every local input the crate references must be
    readable where it was recorded, and its size and modification date are
    compared with the metadata. */
module DpfVerifier {
  import opened Common
  import opened Paths
  import opened Dicts
  import opened FileSystems
  import opened Catalog

  // check_file_accessibility

  /** An object id the accessibility check looks at: not a remote http id,
      and not empty once its file:// prefix is stripped. */
  predicate Checked(id: string) {
    !StartsWith(id, "http") && StripFileUrl(id) != ""
  }

  /** The (path, readable) pairs the loop stores, in order. */
  function AccessPairs(d: Disk, ids: seq<string>): seq<(string, bool)>
    decreases |ids|
  {
    if |ids| == 0 then []
    else
      var id := ids[|ids| - 1];
      AccessPairs(d, ids[..|ids| - 1])
        + (if Checked(id) then [(StripFileUrl(id), StripFileUrl(id) in d.readable)] else [])
  }

  /** Every checked id's path can be read. */
  predicate AllReadable(d: Disk, ids: seq<string>) {
    forall k :: 0 <= k < |ids| && Checked(ids[k]) ==> StripFileUrl(ids[k]) in d.readable
  }

  /** What check_file_accessibility returns: the flag and the dict from
      path to readability. */
  function Accessibility(d: Disk, crate: Crate): Result<(bool, Dict<string, bool>)> {
    var ids := Objects(crate);
    if ids.Err? then Err(ids.error)
    else Ok((AllReadable(d, ids.value), FromPairs(AccessPairs(d, ids.value))))
  }

  lemma {:induction false} AccessStep(d: Disk, ids: seq<string>, i: nat)
    requires i < |ids|
    ensures AccessPairs(d, ids[..i + 1]) == AccessPairs(d, ids[..i])
      + (if Checked(ids[i]) then [(StripFileUrl(ids[i]), StripFileUrl(ids[i]) in d.readable)] else [])
    ensures AllReadable(d, ids[..i + 1]) <==>
      AllReadable(d, ids[..i]) && (Checked(ids[i]) ==> StripFileUrl(ids[i]) in d.readable)
  {
    var pre := ids[..i + 1];
    assert pre[..i] == ids[..i];
    ReadablePrefix(d, pre);
  }

  /** AllReadable of a non-empty list, its last id split off. */
  lemma {:induction false} ReadablePrefix(d: Disk, ids: seq<string>)
    requires |ids| > 0
    ensures var i := |ids| - 1;
      AllReadable(d, ids) <==>
        AllReadable(d, ids[..i]) && (Checked(ids[i]) ==> StripFileUrl(ids[i]) in d.readable)
  {
    var i := |ids| - 1;
    assert forall k :: 0 <= k < i ==> ids[..i][k] == ids[k];
  }

  /** Storing a checked id's readability extends the dict and reads back. */
  lemma {:induction false} AccessPut(d: Disk, ids: seq<string>, i: nat)
    requires i < |ids| && Checked(ids[i])
    ensures var fp := StripFileUrl(ids[i]);
      var acc := Put(FromPairs(AccessPairs(d, ids[..i])), fp, fp in d.readable);
      acc == FromPairs(AccessPairs(d, ids[..i + 1])) && Get(acc, fp) == Some(fp in d.readable)
  {
    AccessStep(d, ids, i);
    var fp := StripFileUrl(ids[i]);
    var ps := AccessPairs(d, ids[..i]);
    var x := (fp, fp in d.readable);
    assert (ps + [x])[..|ps|] == ps;
    FromPairsGet(ps);
    PutSpec(FromPairs(ps), fp, fp in d.readable);
  }

  /** check_file_accessibility(crate) */
  method CheckFileAccessibility(d: Disk, crate: Crate) returns (r: Result<(bool, Dict<string, bool>)>)
    ensures r == Accessibility(d, crate)
  {
    var filePaths := GetObjects(crate);
    if filePaths.Err? {
      return Err(filePaths.error);
    }
    var ids := filePaths.value;
    var accessibility: Dict<string, bool> := [];
    var flag := true;
    var i := 0;
    while i < |ids|
      invariant 0 <= i <= |ids|
      invariant accessibility == FromPairs(AccessPairs(d, ids[..i]))
      invariant flag == AllReadable(d, ids[..i])
    {
      var path := ids[i];
      AccessStep(d, ids, i);
      if !Checked(path) {
        assert AccessPairs(d, ids[..i + 1]) == AccessPairs(d, ids[..i]);
      }
      if !StartsWith(path, "http") {
        var filePath := StripFileUrl(path);
        if filePath != "" {
          AccessPut(d, ids, i);
          accessibility := Put(accessibility, filePath, filePath in d.readable);
          if Get(accessibility, filePath) == Some(false) {
            flag := false;
          }
        }
      }
      i := i + 1;
    }
    assert ids[..i] == ids;
    return Ok((flag, accessibility));
  }

  /** The path the accessibility check stores for an id, if any. */
  function AccessKey(id: string): (r: Option<string>)
    ensures r.Some? <==> Checked(id)
  {
    if Checked(id) then Some(StripFileUrl(id)) else None
  }

  /** The stored keys of a list of ids under f. */
  function Image(ids: seq<string>, f: string -> Option<string>): set<string> {
    set k | 0 <= k < |ids| && f(ids[k]).Some? :: f(ids[k]).value
  }

  /** The paths of the checked ids. */
  function CheckedPaths(ids: seq<string>): set<string> {
    Image(ids, AccessKey)
  }

  lemma {:induction false} ImageSnoc(ids: seq<string>, f: string -> Option<string>)
    requires |ids| > 0
    ensures var id := ids[|ids| - 1];
      Image(ids, f) == Image(ids[..|ids| - 1], f) + (if f(id).Some? then {f(id).value} else {})
  {
    var init := ids[..|ids| - 1];
    var id := ids[|ids| - 1];
    var extra: set<string> := if f(id).Some? then {f(id).value} else {};
    forall x | x in Image(ids, f) ensures x in Image(init, f) + extra {
      var k :| 0 <= k < |ids| && f(ids[k]).Some? && f(ids[k]).value == x;
      if k < |init| {
        assert init[k] == ids[k];
      }
    }
    forall x | x in Image(init, f) + extra ensures x in Image(ids, f) {
      if x in Image(init, f) {
        var k :| 0 <= k < |init| && f(init[k]).Some? && f(init[k]).value == x;
        assert ids[k] == init[k];
      }
    }
  }

  /** The keys of a list of pairs. */
  function PairKeys<K, V>(ps: seq<(K, V)>): set<K> {
    set m | 0 <= m < |ps| :: ps[m].0
  }

  lemma {:induction false} PairKeysAppend<K, V>(ps: seq<(K, V)>, qs: seq<(K, V)>)
    ensures PairKeys(ps + qs) == PairKeys(ps) + PairKeys(qs)
  {
    var all := ps + qs;
    forall x | x in PairKeys(all) ensures x in PairKeys(ps) + PairKeys(qs) {
      var m :| 0 <= m < |all| && all[m].0 == x;
      if m < |ps| {
        assert ps[m].0 == x;
      } else {
        assert qs[m - |ps|].0 == x;
      }
    }
    forall x | x in PairKeys(ps) + PairKeys(qs) ensures x in PairKeys(all) {
      if x in PairKeys(ps) {
        var m :| 0 <= m < |ps| && ps[m].0 == x;
        assert all[m].0 == x;
      } else {
        var m :| 0 <= m < |qs| && qs[m].0 == x;
        assert all[|ps| + m].0 == x;
      }
    }
  }

  /** The stored pairs are keyed by exactly the checked paths, and each
      holds its path's readability. */
  lemma {:induction false} AccessPairsShape(d: Disk, ids: seq<string>)
    ensures PairKeys(AccessPairs(d, ids)) == CheckedPaths(ids)
    ensures forall m :: 0 <= m < |AccessPairs(d, ids)| ==>
      AccessPairs(d, ids)[m].1 == (AccessPairs(d, ids)[m].0 in d.readable)
    decreases |ids|
  {
    if |ids| > 0 {
      var init := ids[..|ids| - 1];
      var id := ids[|ids| - 1];
      AccessPairsShape(d, init);
      var ps0 := AccessPairs(d, init);
      var extra := if Checked(id) then [(StripFileUrl(id), StripFileUrl(id) in d.readable)] else [];
      assert AccessPairs(d, ids) == ps0 + extra;
      PairKeysAppend(ps0, extra);
      if Checked(id) {
        assert extra[0].0 == StripFileUrl(id);
        assert PairKeys(extra) == {StripFileUrl(id)};
      } else {
        assert PairKeys(extra) == {};
      }
      ImageSnoc(ids, AccessKey);
    }
  }

  /** The dict check_file_accessibility returns has one entry per checked
      path, and that entry is the path's readability. */
  lemma {:induction false} AccessibilityLookup(d: Disk, crate: Crate, p: string)
    requires Accessibility(d, crate).Ok?
    ensures var acc := Accessibility(d, crate).value.1;
      UniqueKeys(acc)
      && (HasKey(acc, p) <==> p in CheckedPaths(Objects(crate).value))
      && (HasKey(acc, p) ==> Get(acc, p) == Some(p in d.readable))
  {
    var ids := Objects(crate).value;
    var ps := AccessPairs(d, ids);
    AccessPairsShape(d, ids);
    FromPairsGet(ps);
    LastValueSome(ps, p);
    if LastValue(ps, p).Some? {
      LastValueIn(ps, p);
    }
  }

  /** The flag of check_file_accessibility is true exactly when every entry
      of its dict is. */
  lemma {:induction false} AccessibilityFlag(d: Disk, crate: Crate)
    requires Accessibility(d, crate).Ok?
    ensures var (flag, acc) := Accessibility(d, crate).value;
      flag <==> forall m :: 0 <= m < |acc| ==> acc[m].1
  {
    var ids := Objects(crate).value;
    var ps := AccessPairs(d, ids);
    var acc := FromPairs(ps);
    AccessPairsShape(d, ids);
    FromPairsItems(ps);
    if AllReadable(d, ids) {
      forall m | 0 <= m < |acc| ensures acc[m].1 {
        assert acc[m] in ps;
        var i :| 0 <= i < |ps| && ps[i] == acc[m];
        assert acc[m].0 in PairKeys(ps);
      }
    }
    if forall m :: 0 <= m < |acc| ==> acc[m].1 {
      forall k | 0 <= k < |ids| && Checked(ids[k]) ensures StripFileUrl(ids[k]) in d.readable {
        var q := StripFileUrl(ids[k]);
        assert q in CheckedPaths(ids);
        AccessibilityLookup(d, crate, q);
        var j := KeyIndex(acc, q);
        assert Get(acc, q) == Some(acc[j].1);
      }
    }
  }

  // files_verifier_dpf

  /** The status table rows and the verdicts files_verifier_dpf leaves:
      whether every size and every modification date matched, and the
      paths that did not. */
  datatype DpfReport = DpfReport(records: seq<FileRecord>, sizeOk: bool, dateOk: bool,
                                 sizeMismatches: seq<string>, dateMismatches: seq<string>)

  /** Python's s[:-6], which drops the UTC offset of an ISO date. */
  function DropLast6(s: string): (r: string)
    ensures |s| >= 6 ==> s == r + s[|s| - 6..]
    ensures |s| < 6 ==> r == ""
  {
    if |s| >= 6 then s[..|s| - 6] else ""
  }

  /** The paths of the rows whose size did not match, in order. */
  function SizePaths(rs: seq<FileRecord>): seq<string>
    decreases |rs|
  {
    if |rs| == 0 then []
    else SizePaths(rs[..|rs| - 1]) + (if rs[|rs| - 1].size == 0 then [rs[|rs| - 1].path] else [])
  }

  /** The paths of the rows whose modification date did not match, in order. */
  function DatePaths(rs: seq<FileRecord>): seq<string>
    decreases |rs|
  {
    if |rs| == 0 then []
    else DatePaths(rs[..|rs| - 1]) + (if rs[|rs| - 1].mark == 0 then [rs[|rs| - 1].path] else [])
  }

  /** The verdicts and mismatch lists agree with the rows. */
  predicate Consistent(rep: DpfReport) {
    rep.sizeMismatches == SizePaths(rep.records)
    && rep.dateMismatches == DatePaths(rep.records)
    && (rep.sizeOk <==> rep.sizeMismatches == [])
    && (rep.dateOk <==> rep.dateMismatches == [])
  }

  /** The report after one more row: a size status of 0 clears the size
      verdict and lists the path, a date status of 0 likewise. */
  function Extend(rep: DpfReport, rec: FileRecord): (r: DpfReport)
    ensures r.records == rep.records + [rec]
  {
    DpfReport(rep.records + [rec], rep.sizeOk && rec.size != 0, rep.dateOk && rec.mark != 0,
              rep.sizeMismatches + (if rec.size == 0 then [rec.path] else []),
              rep.dateMismatches + (if rec.mark == 0 then [rec.path] else []))
  }

  lemma {:induction false} ExtendConsistent(rep: DpfReport, rec: FileRecord)
    requires Consistent(rep)
    ensures Consistent(Extend(rep, rec))
  {
    var rs := rep.records + [rec];
    assert rs[..|rs| - 1] == rep.records;
  }

  /** No size mismatch is listed exactly when every row's size status is
      not 0. */
  lemma {:induction false} SizePathsEmpty(rs: seq<FileRecord>)
    ensures SizePaths(rs) == [] <==> forall m :: 0 <= m < |rs| ==> rs[m].size != 0
    decreases |rs|
  {
    if |rs| > 0 {
      var init := rs[..|rs| - 1];
      SizePathsEmpty(init);
      assert forall m :: 0 <= m < |init| ==> init[m] == rs[m];
    }
  }

  /** No date mismatch is listed exactly when every row's date status is
      not 0. */
  lemma {:induction false} DatePathsEmpty(rs: seq<FileRecord>)
    ensures DatePaths(rs) == [] <==> forall m :: 0 <= m < |rs| ==> rs[m].mark != 0
    decreases |rs|
  {
    if |rs| > 0 {
      var init := rs[..|rs| - 1];
      DatePathsEmpty(init);
      assert forall m :: 0 <= m < |init| ==> init[m] == rs[m];
    }
  }

  /** get_instument(crate): the CreateAction's instrument id. */
  function InstrumentOf(crate: Crate): (r: Result<string>)
    ensures r.Ok? <==> crate.action.Some? && crate.action.value.instrument.Some?
  {
    if crate.action.None? then Err(TypeError)
    else if crate.action.value.instrument.None? then Err(KeyError("instrument"))
    else Ok(crate.action.value.instrument.value)
  }

  /** The instrument's row: its size is read first, then compared with a
      contentSize the metadata must record. */
  function InstrumentRecord(d: Disk, crate: Crate, cratePath: string, inst: string): (r: Result<FileRecord>)
    ensures var ip := PathJoin(cratePath, inst);
      var e := EntityById(crate.entities, inst);
      (r.Ok? <==> ip in d.sizes && e.Some? && e.value.contentSize.Some?)
      && (ip !in d.sizes ==> r == Err(OsError(ip)))
      && (r.Ok? ==> r.value.name == inst && r.value.path == ip && r.value.mark == 1
                    && (r.value.size == 0 || r.value.size == 1)
                    && (r.value.size == 1 <==> d.sizes[ip] == e.value.contentSize.value))
  {
    var ip := PathJoin(cratePath, inst);
    var size := GetSize(d, ip);
    if size.Err? then Err(size.error)
    else
      var e := EntityById(crate.entities, inst);
      if e.None? then Err(TypeError)
      else if e.value.contentSize.None? then Err(KeyError("contentSize"))
      else Ok(FileRecord(inst, ip, 1, if size.value == e.value.contentSize.value then 1 else 0))
  }

  /** The row of one object id, None for a skipped remote id. The size
      status is 2 when the metadata records no contentSize, 1 when it
      matches and 0 when not; the date status is 0 when a recorded
      dateModified differs from the file's, 1 otherwise. The file's date
      is read even when the metadata records none. */
  function CheckObjectDpf(d: Disk, crate: Crate, id: string): (r: Result<Option<FileRecord>>)
    ensures r == Ok(None) <==> StartsWith(id, "http")
    ensures r.Err? ==> r == Err(TypeError) || r == Err(OsError(StripFileUrl(id)))
    ensures r.Ok? && r.value.Some? ==>
      EntityById(crate.entities, id).Some? && StripFileUrl(id) in d.mtimes
      && (EntityById(crate.entities, id).value.contentSize.Some? ==> StripFileUrl(id) in d.sizes)
      && var rec := r.value.value;
      var e := EntityById(crate.entities, id).value;
      var fp := StripFileUrl(id);
      rec.name == id && rec.path == fp
      && (rec.size == 2 <==> e.contentSize.None?)
      && (rec.size == 0 <==> e.contentSize.Some? && d.sizes[fp] != e.contentSize.value)
      && (rec.mark == 0 <==> e.dateModified.Some? && d.mtimes[fp] != DropLast6(e.dateModified.value))
      && 0 <= rec.size <= 2 && 0 <= rec.mark <= 1
  {
    if StartsWith(id, "http") then Ok(None)
    else
      var fp := StripFileUrl(id);
      var e := EntityById(crate.entities, id);
      if e.None? then Err(TypeError)
      else
        var size := if e.value.contentSize.Some? then GetSize(d, fp) else Ok(0);
        if size.Err? then Err(size.error)
        else
          var sizeStatus := if e.value.contentSize.None? then 2
                            else if size.value != e.value.contentSize.value then 0 else 1;
          var mtime := GetMtime(d, fp);
          if mtime.Err? then Err(mtime.error)
          else
            var dateBad := e.value.dateModified.Some? && mtime.value != DropLast6(e.value.dateModified.value);
            Ok(Some(FileRecord(id, fp, if dateBad then 0 else 1, sizeStatus)))
  }

  /** The report after one object id: unchanged for a skipped id, one
      more row otherwise. */
  function ObjectStep(d: Disk, crate: Crate, id: string, rep: DpfReport): Result<DpfReport> {
    var c := CheckObjectDpf(d, crate, id);
    if c.Err? then Err(c.error)
    else if c.value.None? then Ok(rep)
    else Ok(Extend(rep, c.value.value))
  }

  /** The object loop from position i on, with the report so far. */
  function VerifyObjectsFrom(d: Disk, crate: Crate, ids: seq<string>, i: nat, rep: DpfReport): (r: Result<DpfReport>)
    requires i <= |ids|
    ensures match r case Ok(_) => true case Err(e) => e == TypeError || e.OsError?
    decreases |ids| - i
  {
    if i == |ids| then Ok(rep)
    else
      var step := ObjectStep(d, crate, ids[i], rep);
      if step.Err? then Err(step.error)
      else VerifyObjectsFrom(d, crate, ids, i + 1, step.value)
  }

  /** What files_verifier_dpf computes before it prints the table. */
  function FilesVerifierDpfSpec(d: Disk, crate: Crate, cratePath: string): (r: Result<DpfReport>)
    ensures match r case Ok(_) => true case Err(e) => e == TypeError || e.KeyError? || e.OsError?
  {
    var inst := InstrumentOf(crate);
    if inst.Err? then Err(inst.error)
    else
      var rec := InstrumentRecord(d, crate, cratePath, inst.value);
      if rec.Err? then Err(rec.error)
      else
        // the instrument lookup already needed the CreateAction, so
        // get_objects cannot raise here
        VerifyObjectsFrom(d, crate, Objects(crate).value, 0, Extend(DpfReport([], true, true, [], []), rec.value))
  }

  /** The object ids the loop does not skip, in order. */
  function LocalIds(ids: seq<string>): (r: seq<string>)
    ensures |r| <= |ids|
    decreases |ids|
  {
    if |ids| == 0 then []
    else (if StartsWith(ids[0], "http") then [] else [ids[0]]) + LocalIds(ids[1..])
  }

  /** An object row: the path is the id without its file:// prefix and both
      statuses are in range. */
  predicate ObjectRow(rec: FileRecord) {
    rec.path == StripFileUrl(rec.name) && 0 <= rec.size <= 2 && 0 <= rec.mark <= 1
  }

  /** One object id keeps the report consistent and adds a single object
      row named after it, or none for a remote id. */
  lemma {:induction false} ObjectStepRows(d: Disk, crate: Crate, id: string, rep: DpfReport)
    requires Consistent(rep) && ObjectStep(d, crate, id, rep).Ok?
    ensures var out := ObjectStep(d, crate, id, rep).value;
      var n := |rep.records|;
      Consistent(out)
      && n <= |out.records| && out.records[..n] == rep.records
      && Names(out.records[n..]) == (if StartsWith(id, "http") then [] else [id])
      && forall m :: n <= m < |out.records| ==> ObjectRow(out.records[m])
  {
    var c := CheckObjectDpf(d, crate, id);
    var n := |rep.records|;
    if c.value.None? {
      assert rep.records[n..] == [];
    } else {
      var rec := c.value.value;
      ExtendConsistent(rep, rec);
      var rs := rep.records + [rec];
      assert rs[..n] == rep.records;
      assert rs[n..] == [rec];
    }
  }

  /** The local ids of a suffix, one id at a time. */
  lemma {:induction false} LocalIdsAt(ids: seq<string>, i: nat)
    requires i < |ids|
    ensures LocalIds(ids[i..]) == (if StartsWith(ids[i], "http") then [] else [ids[i]]) + LocalIds(ids[i + 1..])
  {
    assert ids[i..][1..] == ids[i + 1..];
  }

  /** The object loop keeps the report consistent and adds one object row
      per id it does not skip, in order. */
  lemma {:induction false} VerifyFromKeeps(d: Disk, crate: Crate, ids: seq<string>, i: nat, rep: DpfReport)
    requires i <= |ids| && Consistent(rep) && VerifyObjectsFrom(d, crate, ids, i, rep).Ok?
    ensures var out := VerifyObjectsFrom(d, crate, ids, i, rep).value;
      Consistent(out)
      && |rep.records| <= |out.records| && out.records[..|rep.records|] == rep.records
      && Names(out.records[|rep.records|..]) == LocalIds(ids[i..])
      && forall m :: |rep.records| <= m < |out.records| ==> ObjectRow(out.records[m])
    decreases |ids| - i
  {
    if i == |ids| {
      assert rep.records[|rep.records|..] == [];
      assert ids[i..] == [];
    } else {
      var mid := ObjectStep(d, crate, ids[i], rep).value;
      var out := VerifyObjectsFrom(d, crate, ids, i + 1, mid).value;
      ObjectStepRows(d, crate, ids[i], rep);
      VerifyFromKeeps(d, crate, ids, i + 1, mid);
      LocalIdsAt(ids, i);
      RowsChain(rep.records, mid.records, out.records);
      forall m | |rep.records| <= m < |out.records| ensures ObjectRow(out.records[m]) {
        if m < |mid.records| {
          assert out.records[m] == out.records[..|mid.records|][m];
        }
      }
    }
  }

  /** files_verifier_dpf reports, as its first row, the instrument and then
      one row per local object id in catalogue order; the two verdicts hold
      exactly when no row shows a mismatch, and the mismatch lists name the
      rows that do. */
  lemma {:induction false} FilesVerifierDpfReport(d: Disk, crate: Crate, cratePath: string)
    requires FilesVerifierDpfSpec(d, crate, cratePath).Ok?
    ensures var rep := FilesVerifierDpfSpec(d, crate, cratePath).value;
      var inst := InstrumentOf(crate).value;
      Consistent(rep)
      && |rep.records| > 0
      && rep.records[0] == InstrumentRecord(d, crate, cratePath, inst).value
      && Names(rep.records[1..]) == LocalIds(Objects(crate).value)
      && (forall m :: 1 <= m < |rep.records| ==> ObjectRow(rep.records[m]))
      && (rep.sizeOk <==> forall m :: 0 <= m < |rep.records| ==> rep.records[m].size != 0)
      && (rep.dateOk <==> forall m :: 0 <= m < |rep.records| ==> rep.records[m].mark != 0)
  {
    var inst := InstrumentOf(crate).value;
    var rec := InstrumentRecord(d, crate, cratePath, inst).value;
    var ids := Objects(crate).value;
    var empty := DpfReport([], true, true, [], []);
    ExtendConsistent(empty, rec);
    var start := Extend(empty, rec);
    assert start.records == [rec];
    VerifyFromKeeps(d, crate, ids, 0, start);
    assert ids[0..] == ids;
    var rep := FilesVerifierDpfSpec(d, crate, cratePath).value;
    assert rep.records[..1] == [rec];
    SizePathsEmpty(rep.records);
    DatePathsEmpty(rep.records);
  }

  /** files_verifier_dpf(crate_path), with the crate's metadata as a
      parameter and without the table it prints. */
  method FilesVerifierDpf(d: Disk, crate: Crate, cratePath: string) returns (r: Result<DpfReport>)
    ensures r == FilesVerifierDpfSpec(d, crate, cratePath)
  {
    var instrument := InstrumentOf(crate);
    if instrument.Err? {
      return Err(instrument.error);
    }
    var inst := instrument.value;
    var sizeOk, dateOk := true, true;
    var tempSize: seq<string> := [];
    var tempDate: seq<string> := [];
    var instrumentPath := PathJoin(cratePath, inst);
    var records: seq<FileRecord> := [];
    var instrumentTuple := FileRecord(inst, instrumentPath, 1, 1);
    var size := GetSize(d, instrumentPath);
    if size.Err? {
      return Err(size.error);
    }
    var entity := GetById(crate, inst);
    if entity.None? {
      return Err(TypeError);
    }
    if entity.value.contentSize.None? {
      return Err(KeyError("contentSize"));
    }
    if size.value != entity.value.contentSize.value {
      sizeOk := false;
      tempSize := tempSize + [instrumentPath];
      instrumentTuple := instrumentTuple.(size := 0);
    }
    records := records + [instrumentTuple];
    var filePaths := GetObjects(crate);
    assert filePaths.Ok?;
    var ids := filePaths.value;
    ghost var whole := FilesVerifierDpfSpec(d, crate, cratePath);
    assert InstrumentRecord(d, crate, cratePath, inst) == Ok(instrumentTuple);
    var report := DpfReport(records, sizeOk, dateOk, tempSize, tempDate);
    assert report == Extend(DpfReport([], true, true, [], []), instrumentTuple);
    var i := 0;
    while i < |ids|
      invariant 0 <= i <= |ids|
      invariant VerifyObjectsFrom(d, crate, ids, i, report) == whole
    {
      var step := VerifyObject(d, crate, ids[i], report);
      if step.Err? {
        return Err(step.error);
      }
      report := step.value;
      i := i + 1;
    }
    return Ok(report);
  }

  /** One pass of the object loop of files_verifier_dpf, on the report
      (rows, verdicts and mismatch lists) so far. */
  method VerifyObject(d: Disk, crate: Crate, path: string, report: DpfReport) returns (r: Result<DpfReport>)
    ensures r == ObjectStep(d, crate, path, report)
  {
    var records, sizeOk, dateOk := report.records, report.sizeOk, report.dateOk;
    var tempSize, tempDate := report.sizeMismatches, report.dateMismatches;
    if StartsWith(path, "http") {
      return Ok(report);
    }
    var filePath := StripFileUrl(path);
    var fileObject := GetById(crate, path);
    if fileObject.None? {
      return Err(TypeError);
    }
    var fileTuple := FileRecord(path, filePath, 1, 2);
    if fileObject.value.contentSize.Some? {
      var actual := GetSize(d, filePath);
      if actual.Err? {
        return Err(actual.error);
      }
      if actual.value != fileObject.value.contentSize.value {
        fileTuple := fileTuple.(size := 0);
        sizeOk := false;
        tempSize := tempSize + [filePath];
      } else {
        fileTuple := fileTuple.(size := 1);
      }
    }
    var modified := GetMtime(d, filePath);
    if modified.Err? {
      return Err(modified.error);
    }
    if fileObject.value.dateModified.Some? && modified.value != DropLast6(fileObject.value.dateModified.value) {
      dateOk := false;
      tempDate := tempDate + [filePath];
      fileTuple := fileTuple.(mark := 0);
    }
    records := records + [fileTuple];
    assert CheckObjectDpf(d, crate, path) == Ok(Some(fileTuple));
    assert sizeOk == (report.sizeOk && fileTuple.size != 0);
    assert dateOk == (report.dateOk && fileTuple.mark != 0);
    assert tempSize == report.sizeMismatches + (if fileTuple.size == 0 then [fileTuple.path] else []);
    assert tempDate == report.dateMismatches + (if fileTuple.mark == 0 then [fileTuple.path] else []);
    return Ok(DpfReport(records, sizeOk, dateOk, tempSize, tempDate));
  }

  // data_persistence_false_verifier

  /** data_persistence_false_verifier: a ValueError when some local input
      cannot be read, and otherwise the outcome of files_verifier_dpf,
      whose own errors pass through. */
  function DpfVerifySpec(d: Disk, crate: Crate, cratePath: string): Result<DpfReport> {
    var acc := Accessibility(d, crate);
    if acc.Err? then Err(acc.error)
    else if !acc.value.0 then Err(ValueError(""))
    else FilesVerifierDpfSpec(d, crate, cratePath)
  }

  /** data_persistence_false_verifier(crate_path), with the crate's
      metadata as a parameter and without what it prints. Its handler for a
      ValueError out of files_verifier_dpf is not modelled: that function
      raises no ValueError (see FilesVerifierDpfSpec). */
  method DataPersistenceFalseVerifier(d: Disk, crate: Crate, cratePath: string) returns (r: Result<DpfReport>)
    ensures r == DpfVerifySpec(d, crate, cratePath)
  {
    var acc := CheckFileAccessibility(d, crate);
    if acc.Err? {
      return Err(acc.error);
    }
    if !acc.value.0 {
      return Err(ValueError(""));
    }
    r := FilesVerifierDpf(d, crate, cratePath);
  }

  /** The verifier raises ValueError exactly when the crate lists its
      objects and some checked one cannot be read; otherwise it reports
      what files_verifier_dpf reports. */
  lemma {:induction false} DpfVerifyRaises(d: Disk, crate: Crate, cratePath: string)
    ensures DpfVerifySpec(d, crate, cratePath) == Err(ValueError("")) <==>
      Objects(crate).Ok? && !AllReadable(d, Objects(crate).value)
    ensures Objects(crate).Ok? && AllReadable(d, Objects(crate).value) ==>
      DpfVerifySpec(d, crate, cratePath) == FilesVerifierDpfSpec(d, crate, cratePath)
  {
    var r := FilesVerifierDpfSpec(d, crate, cratePath);
    assert match r case Ok(_) => true case Err(e) => e == TypeError || e.KeyError? || e.OsError?;
  }
}
