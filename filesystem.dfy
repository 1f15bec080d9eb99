/** The part of the filesystem the service consults, and the one change it
    makes to it: creating directories. */
module FileSystems {
  import opened Common
  import opened Paths

  /** A snapshot of the filesystem, as the os module reports it.
      Paths are compared as written: two spellings of one file are two
      entries. */
  datatype Disk = Disk(
    /** the paths os.path.exists accepts */
    entries: set<string>,
    /** os.path.getsize of each regular file */
    sizes: map<string, int>,
    /** os.path.getmtime of each file, already rendered as an ISO date
        without microseconds */
    mtimes: map<string, string>,
    /** the paths os.access(p, os.R_OK) accepts */
    readable: set<string>,
    /** os.listdir of each directory */
    listings: map<string, set<string>>,
    /** os.walk of each directory, flattened to its (root, file) pairs in
        the order the walk yields them */
    walks: map<string, seq<(string, string)>>,
    /** the lines of each text file, each with its line ending */
    contents: map<string, seq<string>>)

  predicate Exists(d: Disk, p: string) {
    p in d.entries
  }

  /** os.listdir of a directory; a path that is not a listed directory
      lists nothing. */
  function Listing(d: Disk, p: string): set<string> {
    if p in d.listings then d.listings[p] else {}
  }

  /** The (root, file) pairs os.walk yields; a missing folder yields none. */
  function Walk(d: Disk, p: string): seq<(string, string)> {
    if p in d.walks then d.walks[p] else []
  }

  /** os.path.getsize(p): the size, or the FileNotFoundError it raises. */
  function GetSize(d: Disk, p: string): (r: Result<int>)
    ensures r.Ok? <==> p in d.sizes
    ensures r.Err? ==> r == Err(OsError(p))
  {
    if p in d.sizes then Ok(d.sizes[p]) else Err(OsError(p))
  }

  /** os.path.getmtime(p), rendered as the verifiers render it. */
  function GetMtime(d: Disk, p: string): (r: Result<string>)
    ensures r.Ok? <==> p in d.mtimes
    ensures r.Err? ==> r == Err(OsError(p))
  {
    if p in d.mtimes then Ok(d.mtimes[p]) else Err(OsError(p))
  }

  /** next(open(p)): the first line; opening a missing file raises
      FileNotFoundError and an empty file raises StopIteration. */
  function FirstLine(d: Disk, p: string): (r: Result<string>)
    ensures r.Ok? <==> p in d.contents && |d.contents[p]| > 0
    ensures r.Ok? ==> r.value == d.contents[p][0]
    ensures p !in d.contents ==> r == Err(OsError(p))
  {
    if p !in d.contents then Err(OsError(p))
    else if |d.contents[p]| == 0 then Err(StopIteration)
    else Ok(d.contents[p][0])
  }

  /** The disk after os.makedirs(p) on a path that may exist: a new path
      becomes an empty directory, an existing one is left as it is. */
  function WithDir(d: Disk, p: string): (r: Disk)
    ensures Exists(r, p)
    ensures r.entries == d.entries + {p}
    ensures Exists(d, p) ==> r == d
    ensures !Exists(d, p) ==> Listing(r, p) == {} && Walk(r, p) == Walk(d, p)
  {
    if p in d.entries then d
    else d.(entries := d.entries + {p}, listings := d.listings[p := {}])
  }

  /** The filesystem the service changes in place. */
  class FileSystem {
    var disk: Disk

    constructor (d: Disk)
      ensures disk == d
    {
      disk := d;
    }

    /** os.makedirs(p, exist_ok=True), and os.mkdir(p) where the caller has
        checked that p does not exist. */
    method MakeDir(p: string)
      modifies this
      ensures disk == WithDir(old(disk), p)
    {
      disk := WithDir(disk, p);
    }
  }
}
