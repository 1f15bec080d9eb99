/** repro_methods/address_mapper.py: the older address mapper, with two
    categories (dataset, then application_sources) and a bare Exception on
    failure. Its backend only drops the "./" of an address and does not
    make a relative address absolute, so the first component of a relative
    address is never tried as an anchor. Its addr_extractor is the same
    loop as the newer one, AddressMapper.AddrExtractor. */
module LegacyAddressMapper {
  import opened Common
  import opened Paths
  import opened FileSystems
  import opened AddressMapper

  /** The address the older backend works on: a leading "./" removed. */
  function Stripped(addr: string): (a: string)
    ensures StartsWith(addr, "./") ==> "./" + a == addr
    ensures !StartsWith(addr, "./") ==> a == addr
  {
    if StartsWith(addr, "./") then addr[2..] else addr
  }

  /** address_converter_backend of the older mapper: the mapped address, or
      the Exception it raises. */
  function LegacyBackendSpec(d: Disk, path: string, addr: string, names: NameSet): Result<string> {
    var a := Stripped(addr);
    var (dirs, filename) := SplitAddress(a);
    var scanned := ScanMapped(d, path, dirs, names);
    var mapped :=
      if Truthy(filename) then
        Some(PathJoin(if Truthy(scanned) then scanned.value else path, filename.value))
      else scanned;
    if Truthy(filename) && !Exists(d, mapped.value) then Err(Exception(NotFoundPrefix + a))
    else if !Truthy(mapped) then Err(Exception(NotFoundPrefix + a))
    else Ok(mapped.value)
  }

  /** A mapped address exists on disk, and a failure is the Exception
      naming the address without its "./". */
  lemma {:induction false} LegacyBackendSound(d: Disk, path: string, addr: string, names: NameSet)
    ensures var r := LegacyBackendSpec(d, path, addr, names);
      (r.Ok? ==> Exists(d, r.value) && r.value != "")
      && (r.Err? ==> r.error == Exception(NotFoundPrefix + Stripped(addr)))
  {
  }

  /** The newer backend's answer with its FileNotFoundError read as the
      older backend's Exception. */
  function AsException(r: Result<string>): Result<string> {
    if r.Err? && r.error.FileNotFound? then Err(Exception(r.error.message)) else r
  }

  /** On an absolute address the two backends agree, up to the class of the
      error they raise. */
  lemma {:induction false} LegacyAgreesOnAbsolute(d: Disk, path: string, addr: string, names: NameSet)
    requires StartsWith(addr, "/")
    ensures LegacyBackendSpec(d, path, addr, names) == AsException(BackendSpec(d, path, addr, names))
  {
    assert addr[0] == '/';
    assert !StartsWith(addr, "./");
  }

  lemma {:induction false} SplitAfterWord(x: string, y: string)
    requires '/' !in x
    ensures Split(x + "/" + y, '/') == [x] + Split(y, '/')
    decreases |x|
  {
    if |x| == 0 {
      assert x + "/" + y == "/" + y;
      assert ("/" + y)[1..] == y;
    } else {
      var s := x + "/" + y;
      assert s[1..] == x[1..] + "/" + y;
      SplitAfterWord(x[1..], y);
      assert [x[0]] + x[1..] == x;
    }
  }

  /** A relative address dir/file is looked up directly under the base
      path: its directory is never tried, even when it is a listed name of
      the category. */
  lemma {:induction false} LegacyTopLevelIgnored(d: Disk, path: string, dir: string, file: string, names: NameSet)
    requires '/' !in dir && '/' !in file && file != "" && dir != "" && dir != "."
    ensures var addr := dir + "/" + file;
      LegacyBackendSpec(d, path, addr, names) ==
        if Exists(d, PathJoin(path, file)) then Ok(PathJoin(path, file))
        else Err(Exception(NotFoundPrefix + addr))
  {
    var addr := dir + "/" + file;
    SplitDirFile(dir, file);
    NotDotSlash(dir, file);
    assert Stripped(addr) == addr;
    assert ScanMapped(d, path, [dir], names) == None;
  }

  /** dir/file splits into the one directory and the file name. */
  lemma {:induction false} SplitDirFile(dir: string, file: string)
    requires '/' !in dir && '/' !in file && file != ""
    ensures SplitAddress(dir + "/" + file) == ([dir], Some(file))
  {
    var addr := dir + "/" + file;
    SplitAfterWord(dir, file);
    SplitSingle(file, '/');
    assert Split(addr, '/') == [dir, file];
    assert addr[|addr| - 1] == file[|file| - 1];
    assert !EndsWith(addr, "/") by {
      assert file[|file| - 1] in file;
    }
  }

  /** dir/file does not start with "./" unless dir is ".". */
  lemma {:induction false} NotDotSlash(dir: string, file: string)
    requires '/' !in dir && dir != "" && dir != "."
    ensures !StartsWith(dir + "/" + file, "./")
  {
    var addr := dir + "/" + file;
    if |dir| == 1 {
      assert dir == [dir[0]];
      assert addr[0] == dir[0] != '.';
    } else {
      assert addr[1] == dir[1] != '/' by {
        assert dir[1] in dir;
      }
    }
  }

  /** address_converter_backend(path, addr, dataset_hashmap) of the older
      mapper. */
  method LegacyBackend(d: Disk, path: string, addr: string, names: NameSet) returns (r: Result<string>)
    ensures r == LegacyBackendSpec(d, path, addr, names)
  {
    var a := addr;
    if StartsWith(a, "./") {
      a := a[2..];
    }
    var (dirs, filename) := SplitAddress(a);
    var mapped := Scan(d, path, dirs, names);
    if Truthy(filename) {
      if !Truthy(mapped) {
        mapped := Some(path);
      }
      mapped := Some(PathJoin(mapped.value, filename.value));
      if !Exists(d, mapped.value) {
        return Err(Exception(NotFoundPrefix + a));
      }
    }
    if !Truthy(mapped) {
      return Err(Exception(NotFoundPrefix + a));
    }
    return Ok(mapped.value);
  }

  /** str(e) of the older backend's Exception. */
  function ExceptionText(e: Error): string {
    if e.Exception? then e.message else ""
  }

  /** address_converter of the older mapper: the dataset first, then the
      application sources, and one Exception carrying both messages when
      neither maps the address. */
  function LegacyConvertSpec(d: Disk, path: string, addr: string, dataset: NameSet, app: NameSet): Result<string> {
    Combine(addr, LegacyBackendSpec(d, PathJoin(path, "dataset"), addr, dataset),
            LegacyBackendSpec(d, PathJoin(path, "application_sources"), addr, app))
  }

  /** The answer of the dataset category, else that of the application
      sources, else the Exception naming the address and both messages. */
  function Combine(addr: string, r1: Result<string>, r2: Result<string>): Result<string> {
    if r1.Ok? then r1
    else if r2.Ok? then r2
    else Err(Exception(NotFoundPrefix + addr + "\nDataset Error: " + ExceptionText(r1.error)
                       + "\nApplication Sources Error: " + ExceptionText(r2.error)))
  }

  /** The conversion succeeds exactly when one of the two categories maps
      the address, the dataset taking precedence; a failure names the raw
      address and both categories' messages. */
  lemma {:induction false} LegacyConvertChoice(d: Disk, path: string, addr: string, dataset: NameSet, app: NameSet)
    ensures var r := LegacyConvertSpec(d, path, addr, dataset, app);
      var r1 := LegacyBackendSpec(d, PathJoin(path, "dataset"), addr, dataset);
      var r2 := LegacyBackendSpec(d, PathJoin(path, "application_sources"), addr, app);
      (r.Ok? <==> r1.Ok? || r2.Ok?)
      && (r1.Ok? ==> r == r1)
      && (r1.Err? && r2.Ok? ==> r == r2)
      && (r.Ok? ==> Exists(d, r.value))
      && (r.Err? ==> r.error == Exception(NotFoundPrefix + addr
                                          + "\nDataset Error: " + (NotFoundPrefix + Stripped(addr))
                                          + "\nApplication Sources Error: " + (NotFoundPrefix + Stripped(addr))))
  {
    var r1 := LegacyBackendSpec(d, PathJoin(path, "dataset"), addr, dataset);
    var r2 := LegacyBackendSpec(d, PathJoin(path, "application_sources"), addr, app);
    LegacyBackendSound(d, PathJoin(path, "dataset"), addr, dataset);
    LegacyBackendSound(d, PathJoin(path, "application_sources"), addr, app);
    CombineSpec(d, addr, r1, r2, Stripped(addr));
  }

  /** Combine on two category answers of the older backend's form. */
  lemma {:induction false} CombineSpec(d: Disk, addr: string, r1: Result<string>, r2: Result<string>, a: string)
    requires r1.Ok? ==> Exists(d, r1.value)
    requires r2.Ok? ==> Exists(d, r2.value)
    requires r1.Err? ==> r1 == Err(Exception(NotFoundPrefix + a))
    requires r2.Err? ==> r2 == Err(Exception(NotFoundPrefix + a))
    ensures var r := Combine(addr, r1, r2);
      (r.Ok? <==> r1.Ok? || r2.Ok?)
      && (r1.Ok? ==> r == r1)
      && (r1.Err? && r2.Ok? ==> r == r2)
      && (r.Ok? ==> Exists(d, r.value))
      && (r.Err? ==> r == Err(Exception(NotFoundPrefix + addr
                                        + "\nDataset Error: " + (NotFoundPrefix + a)
                                        + "\nApplication Sources Error: " + (NotFoundPrefix + a))))
  {
  }

  /** address_converter(path, addr, dataset_hashmap,
      application_sources_hashmap) of the older mapper. */
  method LegacyConvert(d: Disk, path: string, addr: string, dataset: NameSet, app: NameSet)
    returns (r: Result<string>)
    ensures r == LegacyConvertSpec(d, path, addr, dataset, app)
  {
    var datasetPath := PathJoin(path, "dataset");
    var appPath := PathJoin(path, "application_sources");
    var r1 := LegacyBackend(d, datasetPath, addr, dataset);
    if r1.Ok? {
      return r1;
    }
    var r2 := LegacyBackend(d, appPath, addr, app);
    if r2.Ok? {
      return r2;
    }
    return Err(Exception(NotFoundPrefix + addr + "\nDataset Error: " + ExceptionText(r1.error)
                         + "\nApplication Sources Error: " + ExceptionText(r2.error)));
  }
}
