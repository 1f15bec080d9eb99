/** reproducibility_methods/address_mapper.py: mapping an address of the
    recorded run onto a file or directory inside the RO-Crate. Each crate
    category (remote_dataset, dataset or new_dataset, application_sources)
    is tried with the names listed at its top level; inside a category the
    first directory component of the address that is listed there and under
    which the rest of the address exists anchors the mapping. */
module AddressMapper {
  import opened Common
  import opened Paths
  import opened FileSystems

  /** The keys of a hashmap built by addr_extractor: the names listed at the
      top level of a crate category. */
  type NameSet = set<string>

  const NotFoundPrefix := "Could not find the mapped address for: "

  /** The address the backend works on: a leading "./" loses its dot, and
      a relative address is made absolute. */
  function Normalise(addr: string): (a: string)
    ensures StartsWith(a, "/")
    ensures StartsWith(addr, "/") ==> a == addr
  {
    if StartsWith(addr, "./") then
      assert addr[0] == '.' && !StartsWith(addr, "/");
      addr[1..]
    else if StartsWith(addr, "/") then addr
    else "/" + addr
  }

  lemma {:induction false} SplitAfterSlash(s: string)
    ensures Split("/" + s, '/') == [""] + Split(s, '/')
  {
    assert ("/" + s)[1..] == s;
  }

  /** Normalising is idempotent, and it changes only the leading component
      of the address: "./a/b", "/a/b" and "a/b" all end in the components
      a and b. */
  lemma {:induction false} NormaliseComponents(addr: string)
    ensures Normalise(Normalise(addr)) == Normalise(addr)
    ensures Split(Normalise(addr), '/')[1..] ==
      if StartsWith(addr, "/") || StartsWith(addr, "./") then Split(addr, '/')[1..]
      else Split(addr, '/')
  {
    if StartsWith(addr, "./") {
      var x := addr[2..];
      assert addr[1..] == "/" + x;
      SplitAfterSlash(x);
      assert addr[1..][1..] == x;
      assert Split(addr, '/') == [[addr[0]] + Split(addr[1..], '/')[0]] + Split(addr[1..], '/')[1..];
      assert Split(addr, '/')[1..] == Split(x, '/');
    } else if !StartsWith(addr, "/") {
      SplitAfterSlash(addr);
    }
  }

  /** The components of a normalised address and, unless it ends in "/",
      the file name popped off its end. */
  function SplitAddress(a: string): (r: (seq<string>, Option<string>))
    ensures r.1.None? <==> EndsWith(a, "/")
    ensures forall k :: 0 <= k < |r.0| ==> '/' !in r.0[k]
  {
    var parts := Split(a, '/');
    if EndsWith(a, "/") then (parts, None)
    else (parts[..|parts| - 1], Some(parts[|parts| - 1]))
  }

  /** The popped file name is the basename of the address, and it is never
      empty. */
  lemma {:induction false} SplitAddressFile(addr: string)
    requires !EndsWith(Normalise(addr), "/")
    ensures var f := SplitAddress(Normalise(addr)).1;
      f.Some? && f.value == Basename(Normalise(addr)) && f.value != "" && '/' !in f.value
  {
    var a := Normalise(addr);
    SplitLastIsBasename(a);
  }

  /** The path the scan tries from component i on: the base path joined
      with components i, i+1, ... of the address. */
  function Candidate(path: string, parts: seq<string>, i: nat): string
    requires i < |parts|
  {
    JoinAll(path, parts[i..])
  }

  /** Component i anchors the mapping: it is a listed name of the category
      and the candidate from it on exists. */
  predicate Anchors(d: Disk, path: string, parts: seq<string>, names: NameSet, i: nat)
    requires i < |parts|
  {
    parts[i] in names && Exists(d, Candidate(path, parts, i))
  }

  /** The first anchoring component at or after from, or |parts| when none
      anchors. */
  function FirstAnchor(d: Disk, path: string, parts: seq<string>, names: NameSet, from: nat): (i: nat)
    requires from <= |parts|
    ensures from <= i <= |parts|
    ensures i < |parts| ==> Anchors(d, path, parts, names, i)
    ensures forall j :: from <= j < i ==> !Anchors(d, path, parts, names, j)
    decreases |parts| - from
  {
    if from == |parts| then from
    else if Anchors(d, path, parts, names, from) then from
    else FirstAnchor(d, path, parts, names, from + 1)
  }

  /** The directory the scan settles on, if any. The leading "" of the
      split (component 0) is never tried. */
  function ScanMapped(d: Disk, path: string, dirs: seq<string>, names: NameSet): (m: Option<string>)
    ensures m.Some? ==> Exists(d, m.value)
  {
    if |dirs| == 0 then None
    else
      var k := FirstAnchor(d, path, dirs, names, 1);
      if k < |dirs| then Some(Candidate(path, dirs, k)) else None
  }

  /** address_converter_backend: the mapped address, or the
      FileNotFoundError it raises. */
  function BackendSpec(d: Disk, path: string, addr: string, names: NameSet): Result<string> {
    var a := Normalise(addr);
    var (dirs, filename) := SplitAddress(a);
    var scanned := ScanMapped(d, path, dirs, names);
    var mapped :=
      if Truthy(filename) then
        Some(PathJoin(if Truthy(scanned) then scanned.value else path, filename.value))
      else scanned;
    if Truthy(filename) && !Exists(d, mapped.value) then Err(FileNotFound(NotFoundPrefix + a))
    else if !Truthy(mapped) then Err(FileNotFound(NotFoundPrefix + a))
    else Ok(mapped.value)
  }

  /** A mapped address exists on disk, and a failure is the
      FileNotFoundError naming the normalised address. */
  lemma {:induction false} BackendSound(d: Disk, path: string, addr: string, names: NameSet)
    ensures var r := BackendSpec(d, path, addr, names);
      (r.Ok? ==> Exists(d, r.value) && r.value != "")
      && (r.Err? ==> r.error == FileNotFound(NotFoundPrefix + Normalise(addr)))
  {
  }

  /** A file address maps onto a file of the same name: under the anchored
      directory when there is one, directly under the base path otherwise. */
  lemma {:induction false} BackendKeepsFileName(d: Disk, path: string, addr: string, names: NameSet)
    requires !EndsWith(Normalise(addr), "/")
    requires BackendSpec(d, path, addr, names).Ok?
    ensures var r := BackendSpec(d, path, addr, names).value;
      Basename(r) == Basename(Normalise(addr))
      && var scanned := ScanMapped(d, path, SplitAddress(Normalise(addr)).0, names);
      r == PathJoin(if Truthy(scanned) then scanned.value else path, Basename(Normalise(addr)))
  {
    SplitAddressFile(addr);
    var a := Normalise(addr);
    var scanned := ScanMapped(d, path, SplitAddress(a).0, names);
    PathJoinBasename(if Truthy(scanned) then scanned.value else path, Basename(a));
  }

  /** A directory address maps only through an anchor: onto the candidate of
      its first anchoring component. */
  lemma {:induction false} BackendDirectory(d: Disk, path: string, addr: string, names: NameSet)
    requires EndsWith(Normalise(addr), "/")
    ensures var parts := Split(Normalise(addr), '/');
      var r := BackendSpec(d, path, addr, names);
      r.Ok? <==> (exists i :: (1 <= i < |parts| && Anchors(d, path, parts, names, i)
                               && Candidate(path, parts, i) != ""))
    ensures var parts := Split(Normalise(addr), '/');
      var r := BackendSpec(d, path, addr, names);
      r.Ok? ==> exists i :: (1 <= i < |parts| && r.value == Candidate(path, parts, i)
                             && Anchors(d, path, parts, names, i)
                             && forall j :: 1 <= j < i ==> !Anchors(d, path, parts, names, j))
  {
    var parts := Split(Normalise(addr), '/');
    var r := BackendSpec(d, path, addr, names);
    var k := FirstAnchor(d, path, parts, names, 1);
    if exists i :: 1 <= i < |parts| && Anchors(d, path, parts, names, i) && Candidate(path, parts, i) != "" {
      var i :| 1 <= i < |parts| && Anchors(d, path, parts, names, i) && Candidate(path, parts, i) != "";
      assert k <= i;
      JoinAllFromSlashed(path, parts, k, i);
    }
    if r.Ok? {
      assert k < |parts| && r.value == Candidate(path, parts, k);
    }
  }

  /** An anchored candidate is empty only when every candidate after it is:
      joining more components never shortens a path. */
  lemma {:induction false} JoinAllFromSlashed(path: string, parts: seq<string>, k: nat, i: nat)
    requires k <= i < |parts|
    requires Candidate(path, parts, i) != ""
    ensures Candidate(path, parts, k) != ""
  {
    JoinAllNonEmpty(path, parts[k..], i - k);
    assert parts[k..][i - k..] == parts[i..];
  }

  /** A join whose tail from position n on is joined onto a non-empty path is
      non-empty. Stated on the fold: a non-empty suffix fold implies a
      non-empty whole fold. */
  lemma {:induction false} JoinAllNonEmpty(path: string, ps: seq<string>, n: nat)
    requires n < |ps|
    requires JoinAll(path, ps[n..]) != ""
    ensures JoinAll(path, ps) != ""
    decreases |ps|
  {
    if JoinAll(path, ps) == "" {
      JoinAllEmpty(path, ps);
      assert forall m :: 0 <= m < |ps[n..]| ==> ps[n..][m] == ps[n + m];
      JoinAllOfEmpty(path, ps[n..]);
    }
  }

  /** The fold is empty exactly when the base path and every component are. */
  lemma {:induction false} JoinAllEmpty(path: string, ps: seq<string>)
    requires JoinAll(path, ps) == ""
    ensures path == "" && forall m :: 0 <= m < |ps| ==> ps[m] == ""
    decreases |ps|
  {
    if |ps| > 0 {
      var init := ps[..|ps| - 1];
      assert JoinAll(path, ps) == PathJoin(JoinAll(path, init), ps[|ps| - 1]);
      JoinAllEmpty(path, init);
      assert forall m :: 0 <= m < |init| ==> init[m] == ps[m];
    }
  }

  lemma {:induction false} JoinAllOfEmpty(path: string, ps: seq<string>)
    requires path == "" && forall m :: 0 <= m < |ps| ==> ps[m] == ""
    ensures JoinAll(path, ps) == ""
    decreases |ps|
  {
    if |ps| > 0 {
      var init := ps[..|ps| - 1];
      assert forall m :: 0 <= m < |init| ==> init[m] == ps[m];
      JoinAllOfEmpty(path, init);
    }
  }

  /** The inner loop of the scan: path joined with every component from
      i on. */
  method JoinFrom(path: string, dirs: seq<string>, i: nat) returns (temp: string)
    requires i < |dirs|
    ensures temp == Candidate(path, dirs, i)
  {
    temp := PathJoin(path, dirs[i]);
    var j := i + 1;
    assert dirs[i..j] == [dirs[i]];
    assert JoinAll(path, dirs[i..j]) == PathJoin(JoinAll(path, []), dirs[i]) by {
      assert dirs[i..j][..0] == [];
    }
    while j < |dirs|
      invariant i < j <= |dirs|
      invariant temp == JoinAll(path, dirs[i..j])
      decreases |dirs| - j
    {
      assert dirs[i..j + 1][..j - i] == dirs[i..j];
      temp := PathJoin(temp, dirs[j]);
      j := j + 1;
    }
    assert dirs[i..j] == dirs[i..];
  }

  /** The scan of address_converter_backend: from component 1 on, the first
      listed component under which the rest of the address exists. */
  method Scan(d: Disk, path: string, dirs: seq<string>, names: NameSet) returns (mapped: Option<string>)
    ensures mapped == ScanMapped(d, path, dirs, names)
  {
    mapped := None;
    if |dirs| == 0 {
      return;
    }
    var i := 1;
    while i < |dirs|
      invariant 1 <= i <= |dirs|
      invariant FirstAnchor(d, path, dirs, names, i) == FirstAnchor(d, path, dirs, names, 1)
      decreases |dirs| - i
    {
      if dirs[i] in names {
        var temp := JoinFrom(path, dirs, i);
        if Exists(d, temp) {
          mapped := Some(temp);
          return;
        }
      }
      i := i + 1;
    }
  }

  /** address_converter_backend(path, addr, dataset_hashmap) */
  method Backend(d: Disk, path: string, addr: string, names: NameSet) returns (r: Result<string>)
    ensures r == BackendSpec(d, path, addr, names)
  {
    var a := addr;
    if StartsWith(a, "./") {
      a := a[1..];
    }
    if !StartsWith(a, "/") {
      a := "/" + a;
    }
    var (dirs, filename) := SplitAddress(a);
    var mapped := Scan(d, path, dirs, names);
    if Truthy(filename) {
      if !Truthy(mapped) {
        mapped := Some(path);
      }
      mapped := Some(PathJoin(mapped.value, filename.value));
      if !Exists(d, mapped.value) {
        return Err(FileNotFound(NotFoundPrefix + a));
      }
    }
    if !Truthy(mapped) {
      return Err(FileNotFound(NotFoundPrefix + a));
    }
    return Ok(mapped.value);
  }

  /** One category address_converter tries: its directory in the crate, the
      names listed there, and the context its error is reported under. */
  datatype Attempt = Attempt(base: string, names: NameSet, context: string)

  /** The categories in the order address_converter tries them: the remote
      dataset first when the run had one, then the dataset (new_dataset
      when the run generated its dataset), then the application sources. */
  function Attempts(path: string, dataset: NameSet, app: NameSet, remote: NameSet,
                    flags: (bool, bool)): (r: seq<Attempt>)
    ensures |r| == if flags.0 then 3 else 2
    ensures r[|r| - 1] == Attempt(PathJoin(path, "application_sources"), app, "Application Sources Error")
    ensures r[|r| - 2].names == dataset && r[|r| - 2].context == "Dataset Error"
    ensures r[|r| - 2].base == PathJoin(path, if flags.1 then "new_dataset" else "dataset")
    ensures flags.0 ==> r[0] == Attempt(PathJoin(path, "remote_dataset"), remote, "Remote Dataset Error")
  {
    var datasetPath := if flags.1 then PathJoin(path, "new_dataset") else PathJoin(path, "dataset");
    var tries := [Attempt(datasetPath, dataset, "Dataset Error"),
                  Attempt(PathJoin(path, "application_sources"), app, "Application Sources Error")];
    if flags.0 then [Attempt(PathJoin(path, "remote_dataset"), remote, "Remote Dataset Error")] + tries
    else tries
  }

  /** "\n".join(f"{context}: {err}" for context, err in errors) */
  function ErrorLines(errors: seq<(string, string)>): string {
    JoinWith(ContextLines(errors), '\n')
  }

  function ContextLines(errors: seq<(string, string)>): (lines: seq<string>)
    ensures |lines| == |errors|
    ensures forall k :: 0 <= k < |errors| ==> lines[k] == errors[k].0 + ": " + errors[k].1
    decreases |errors|
  {
    if |errors| == 0 then [] else [errors[0].0 + ": " + errors[0].1] + ContextLines(errors[1..])
  }

  /** handle_address_conversion_failure: the FileNotFoundError listing each
      category's error under the raw address; with no errors at all,
      errors[-1] raises IndexError instead. */
  function ConversionFailure(addr: string, errors: seq<(string, string)>): (e: Error)
    ensures |errors| == 0 <==> e == IndexError
    ensures |errors| > 0 ==> e.FileNotFound? && StartsWith(e.message, NotFoundPrefix + addr + "\n")
  {
    if |errors| == 0 then IndexError
    else FileNotFound(NotFoundPrefix + addr + "\n" + ErrorLines(errors))
  }

  /** str(e) of a FileNotFoundError the service raised. */
  function MessageOf(e: Error): string {
    if e.FileNotFound? then e.message else ""
  }

  /** The loop of address_converter from the given attempts on, with the
      errors gathered so far: the first category that maps the address
      wins; a FileNotFoundError is recorded and the next category tried. */
  function ConvertFrom(d: Disk, addr: string, tries: seq<Attempt>, errors: seq<(string, string)>): Result<string>
    decreases |tries|
  {
    if |tries| == 0 then Err(ConversionFailure(addr, errors))
    else
      var r := BackendSpec(d, tries[0].base, addr, tries[0].names);
      if r.Ok? then r
      else if !r.error.FileNotFound? then r
      else ConvertFrom(d, addr, tries[1..], errors + [(tries[0].context, MessageOf(r.error))])
  }

  /** address_converter: the mapping of the first category that maps the
      address. */
  function ConvertSpec(d: Disk, path: string, addr: string, dataset: NameSet, app: NameSet,
                       remote: NameSet, flags: (bool, bool)): Result<string> {
    ConvertFrom(d, addr, Attempts(path, dataset, app, remote, flags), [])
  }

  /** address_converter(path, addr, dataset_hashmap,
      application_sources_hashmap, remote_dataset_hashmap, dataset_flags) */
  method Convert(d: Disk, path: string, addr: string, dataset: NameSet, app: NameSet,
                 remote: NameSet, flags: (bool, bool)) returns (r: Result<string>)
    ensures r == ConvertSpec(d, path, addr, dataset, app, remote, flags)
  {
    var tries := Attempts(path, dataset, app, remote, flags);
    var errors: seq<(string, string)> := [];
    var i := 0;
    while i < |tries|
      invariant 0 <= i <= |tries|
      invariant ConvertFrom(d, addr, tries[i..], errors) == ConvertFrom(d, addr, tries, [])
      decreases |tries| - i
    {
      assert tries[i..][1..] == tries[i + 1..];
      r := Backend(d, tries[i].base, addr, tries[i].names);
      if r.Ok? {
        return r;
      }
      if !r.error.FileNotFound? {
        return r;
      }
      errors := errors + [(tries[i].context, MessageOf(r.error))];
      i := i + 1;
    }
    r := Err(ConversionFailure(addr, errors));
  }

  /** The conversion succeeds exactly when some category maps the address,
      and then it is the mapping of the first such category; an earlier
      category's failure is never its answer. */
  lemma {:induction false} ConvertFirstSuccess(d: Disk, addr: string, tries: seq<Attempt>,
                                               errors: seq<(string, string)>)
    ensures var r := ConvertFrom(d, addr, tries, errors);
      r.Ok? <==> exists i :: 0 <= i < |tries| && BackendSpec(d, tries[i].base, addr, tries[i].names).Ok?
    ensures var r := ConvertFrom(d, addr, tries, errors);
      r.Ok? ==> exists i :: (0 <= i < |tries| && r == BackendSpec(d, tries[i].base, addr, tries[i].names)
                             && forall j :: 0 <= j < i ==> BackendSpec(d, tries[j].base, addr, tries[j].names).Err?)
    decreases |tries|
  {
    if |tries| > 0 {
      var r0 := BackendSpec(d, tries[0].base, addr, tries[0].names);
      BackendSound(d, tries[0].base, addr, tries[0].names);
      if r0.Err? {
        var rest := tries[1..];
        ConvertFirstSuccess(d, addr, rest, errors + [(tries[0].context, MessageOf(r0.error))]);
        assert forall i :: 0 <= i < |rest| ==> rest[i] == tries[i + 1];
        var r := ConvertFrom(d, addr, tries, errors);
        if exists i :: 0 <= i < |tries| && BackendSpec(d, tries[i].base, addr, tries[i].names).Ok? {
          var i :| 0 <= i < |tries| && BackendSpec(d, tries[i].base, addr, tries[i].names).Ok?;
          assert rest[i - 1] == tries[i];
        }
        if r.Ok? {
          var i :| 0 <= i < |rest| && r == BackendSpec(d, rest[i].base, addr, rest[i].names)
            && forall j :: 0 <= j < i ==> BackendSpec(d, rest[j].base, addr, rest[j].names).Err?;
          assert r == BackendSpec(d, tries[i + 1].base, addr, tries[i + 1].names);
          forall j | 0 <= j < i + 1 ensures BackendSpec(d, tries[j].base, addr, tries[j].names).Err? {
            if j > 0 {
              assert tries[j] == rest[j - 1];
            }
          }
        }
      }
    }
  }

  /** When every category fails, the error lists every category's failure,
      in attempt order, under the raw address. */
  lemma {:induction false} ConvertAllFail(d: Disk, addr: string, tries: seq<Attempt>,
                                          errors: seq<(string, string)>)
    requires forall i :: 0 <= i < |tries| ==> BackendSpec(d, tries[i].base, addr, tries[i].names).Err?
    ensures ConvertFrom(d, addr, tries, errors) ==
      Err(ConversionFailure(addr, errors + FailureLines(d, addr, tries)))
    decreases |tries|
  {
    if |tries| > 0 {
      var rest := tries[1..];
      var line := FailureLines(d, addr, tries)[0];
      ConvertFailStep(d, addr, tries, errors);
      forall i | 0 <= i < |rest| ensures BackendSpec(d, rest[i].base, addr, rest[i].names).Err? {
        assert rest[i] == tries[i + 1];
      }
      ConvertAllFail(d, addr, rest, errors + [line]);
      ConcatAssoc(errors, [line], FailureLines(d, addr, rest));
    } else {
      assert errors + FailureLines(d, addr, tries) == errors;
    }
  }

  /** A first category that fails passes its line on to the rest. */
  lemma {:induction false} ConvertFailStep(d: Disk, addr: string, tries: seq<Attempt>,
                                           errors: seq<(string, string)>)
    requires |tries| > 0 && BackendSpec(d, tries[0].base, addr, tries[0].names).Err?
    ensures var line := FailureLines(d, addr, tries)[0];
      ConvertFrom(d, addr, tries, errors) == ConvertFrom(d, addr, tries[1..], errors + [line])
      && FailureLines(d, addr, tries) == [line] + FailureLines(d, addr, tries[1..])
  {
    BackendSound(d, tries[0].base, addr, tries[0].names);
  }

  /** The (context, message) pair of each failing category, in order. */
  function FailureLines(d: Disk, addr: string, tries: seq<Attempt>): (r: seq<(string, string)>)
    ensures |r| == |tries|
    decreases |tries|
  {
    if |tries| == 0 then []
    else
      var r0 := BackendSpec(d, tries[0].base, addr, tries[0].names);
      [(tries[0].context, if r0.Err? then MessageOf(r0.error) else "")] + FailureLines(d, addr, tries[1..])
  }

  /** With a remote dataset, an address the remote dataset maps is looked up
      there whatever the other categories hold. */
  lemma {:induction false} RemoteFirst(d: Disk, path: string, addr: string, dataset: NameSet,
                                       app: NameSet, remote: NameSet, dataDir: bool)
    requires BackendSpec(d, PathJoin(path, "remote_dataset"), addr, remote).Ok?
    ensures ConvertSpec(d, path, addr, dataset, app, remote, (true, dataDir)) ==
      BackendSpec(d, PathJoin(path, "remote_dataset"), addr, remote)
  {
  }

  /** A failed conversion is always a FileNotFoundError whose message
      starts with the not-found line of the address; the conversion never
      raises IndexError. */
  lemma {:induction false} ConvertFailureNamesCategories(d: Disk, path: string, addr: string,
                                                         dataset: NameSet, app: NameSet,
                                                         remote: NameSet, flags: (bool, bool))
    requires ConvertSpec(d, path, addr, dataset, app, remote, flags).Err?
    ensures var e := ConvertSpec(d, path, addr, dataset, app, remote, flags).error;
      e.FileNotFound? && StartsWith(e.message, NotFoundPrefix + addr + "\n")
  {
    var tries := Attempts(path, dataset, app, remote, flags);
    forall i | 0 <= i < |tries| ensures BackendSpec(d, tries[i].base, addr, tries[i].names).Err? {
      ConvertFirstSuccess(d, addr, tries, []);
    }
    ConvertAllFail(d, addr, tries, []);
  }

  /** addr_extractor(path): the names listed in a directory, which is
      created first when it does not exist. */
  method AddrExtractor(fs: FileSystem, path: string) returns (names: NameSet)
    modifies fs
    ensures fs.disk == WithDir(old(fs.disk), path)
    ensures names == Listing(fs.disk, path)
  {
    if !Exists(fs.disk, path) {
      fs.MakeDir(path);
    } else {
      assert WithDir(fs.disk, path) == fs.disk;
    }
    var remaining := Listing(fs.disk, path);
    names := {};
    while remaining != {}
      invariant names + remaining == Listing(fs.disk, path)
      decreases remaining
    {
      var name :| name in remaining;
      names := names + {name};
      remaining := remaining - {name};
    }
  }
}
