/** The address mapping of data_persistance_false.py, used when the crate
    records references to files instead of the files themselves. An address
    is first looked up in the crate's application sources; otherwise its
    directory components are matched against the component lists of the
    catalogue's object and result ids, and an address that best matches a
    result is sent to a fresh numbered output directory. */
module DpfMapper {
  import opened Common
  import opened Paths
  import opened FileSystems
  import opened AddressMapper

  // url_splitter

  /** url_splitter: the directory components of a catalogue id, once its
      'file://<host>' prefix is stripped and it is normalised; the file
      part of an id that does not end in "/" is dropped, and so is the
      empty component before the leading "/". */
  function UrlSplitter(id: string): (cs: seq<string>)
    ensures forall k :: 0 <= k < |cs| ==> '/' !in cs[k]
  {
    var dirs := SplitAddress(Normalise(StripFileUrl(id))).0;
    if |dirs| == 0 then [] else dirs[1..]
  }

  /** Put back behind a "/" and followed by the file part, the components
      rebuild the normalised id. */
  lemma {:induction false} UrlSplitterRebuilds(id: string)
    ensures var a := Normalise(StripFileUrl(id));
      JoinWith([""] + UrlSplitter(id) + (if EndsWith(a, "/") then [] else [Basename(a)]), '/') == a
  {
    var a := Normalise(StripFileUrl(id));
    ComponentsRebuild(a);
  }

  lemma {:induction false} ComponentsRebuild(a: string)
    requires StartsWith(a, "/")
    ensures var dirs := SplitAddress(a).0;
      |dirs| >= 1
      && JoinWith([""] + dirs[1..] + (if EndsWith(a, "/") then [] else [Basename(a)]), '/') == a
  {
    var parts := Split(a, '/');
    LeadingSlashSplit(a);
    SplitJoin(a, '/');
    var dirs := SplitAddress(a).0;
    if EndsWith(a, "/") {
      assert dirs == parts;
      assert [""] + dirs[1..] + [] == parts;
    } else {
      SplitLastIsBasename(a);
      assert dirs == parts[..|parts| - 1];
      assert [""] + dirs[1..] + [parts[|parts| - 1]] == parts;
    }
  }

  /** The split of a path with a leading "/" starts with an empty piece
      and has at least one more. */
  lemma {:induction false} LeadingSlashSplit(a: string)
    requires StartsWith(a, "/")
    ensures |Split(a, '/')| >= 2 && Split(a, '/')[0] == ""
  {
    assert a[0] == '/';
    assert Split(a, '/') == [""] + Split(a[1..], '/');
  }

  // address_converter_backend of the DPF module

  /** The DPF copy of address_converter_backend: the same scan as the
      local one, but a file that is not there gives None instead of an
      exception, and so does a directory the scan does not find. */
  function BackendDpfSpec(d: Disk, path: string, addr: string, names: NameSet): (r: Option<string>)
    ensures r.Some? ==> Exists(d, r.value)
  {
    var a := Normalise(addr);
    var (dirs, filename) := SplitAddress(a);
    var scanned := ScanMapped(d, path, dirs, names);
    if Truthy(filename) then
      var m := PathJoin(if Truthy(scanned) then scanned.value else path, filename.value);
      if Exists(d, m) then Some(m) else None
    else scanned
  }

  /** The DPF backend answers with a path exactly when the local backend
      does not raise, and then with the same path. */
  lemma {:induction false} BackendDpfAgrees(d: Disk, path: string, addr: string, names: NameSet)
    ensures Truthy(BackendDpfSpec(d, path, addr, names)) <==> BackendSpec(d, path, addr, names).Ok?
    ensures BackendSpec(d, path, addr, names).Ok? ==>
      BackendDpfSpec(d, path, addr, names) == Some(BackendSpec(d, path, addr, names).value)
  {
    var a := Normalise(addr);
    var (dirs, filename) := SplitAddress(a);
    if Truthy(filename) {
      var scanned := ScanMapped(d, path, dirs, names);
      var m := PathJoin(if Truthy(scanned) then scanned.value else path, filename.value);
      assert |m| >= |filename.value|;
    }
  }

  /** address_converter_backend(path, addr, dataset_hashmap) of
      data_persistance_false.py */
  method BackendDpf(d: Disk, path: string, addr: string, names: NameSet) returns (r: Option<string>)
    ensures r == BackendDpfSpec(d, path, addr, names)
  {
    var a := addr;
    if StartsWith(a, "./") {
      a := a[1..];
    }
    if !StartsWith(a, "/") {
      a := "/" + a;
    }
    var (dirs, filename) := SplitAddress(a);
    var mapped := Scan(d, path, dirs, names);
    if Truthy(filename) {
      if !Truthy(mapped) {
        mapped := Some(path);
      }
      mapped := Some(PathJoin(mapped.value, filename.value));
      if !Exists(d, mapped.value) {
        return None;
      }
    }
    return mapped;
  }

  // The component match of address_mapper_dpf

  /** The position of the last occurrence of x in ls, -1 when there is
      none: the backwards while loop of the match. */
  function LastIndex(ls: seq<string>, x: string): (j: int)
    ensures -1 <= j < |ls|
    ensures j >= 0 ==> ls[j] == x
    ensures forall k :: j < k < |ls| ==> ls[k] != x
    ensures j >= 0 <==> x in ls
    decreases |ls|
  {
    if |ls| == 0 then -1
    else if ls[|ls| - 1] == x then |ls| - 1
    else
      var j := LastIndex(ls[..|ls| - 1], x);
      assert ls == ls[..|ls| - 1] + [ls[|ls| - 1]];
      j
  }

  /** The candidate a list gives component i of the address: the list up to
      its position j, then the address components after i, all joined. */
  function ListCandidate(ls: seq<string>, j: nat, parts: seq<string>, i: nat): string
    requires j < |ls| && i < |parts|
  {
    JoinAll(JoinAll("", ls[..j + 1]), parts[i + 1..])
  }

  /** len_matched_result for component i: the last result list holding the
      component decides, with the position of the component's last
      occurrence in it, or 0 when the "/"-prefixed candidate does not exist. */
  function ResultLen(d: Disk, rl: seq<seq<string>>, parts: seq<string>, i: nat): nat
    requires i < |parts|
    decreases |rl|
  {
    if |rl| == 0 then 0
    else
      var ls := rl[|rl| - 1];
      if parts[i] in ls then
        var j := LastIndex(ls, parts[i]);
        if Exists(d, "/" + ListCandidate(ls, j, parts, i)) then j else 0
      else ResultLen(d, rl[..|rl| - 1], parts, i)
  }

  /** len_matched_object and temp_addr_object for component i: the length
      is decided as for results, while the candidate kept is the last one
      that exists, which a later list without an existing candidate does
      not clear. */
  function ObjectMatch(d: Disk, ol: seq<seq<string>>, parts: seq<string>, i: nat): (r: (nat, Option<string>))
    requires i < |parts|
    ensures r.1.Some? ==> Exists(d, "/" + r.1.value)
    ensures r.0 > 0 ==> r.1.Some?
    decreases |ol|
  {
    if |ol| == 0 then (0, None)
    else
      var prev := ObjectMatch(d, ol[..|ol| - 1], parts, i);
      var ls := ol[|ol| - 1];
      if parts[i] in ls then
        var j := LastIndex(ls, parts[i]);
        var c := ListCandidate(ls, j, parts, i);
        if Exists(d, "/" + c) then (j, Some(c)) else (0, prev.1)
      else prev
  }

  /** The variables the scan carries: matched_len, mapped_addr and
      result_flag. */
  datatype ScanState = ScanState(matched: int, mapped: Option<string>, toResult: bool)

  /** One iteration of the scan, for component i. */
  function Step(d: Disk, ol: seq<seq<string>>, rl: seq<seq<string>>, rp: Option<string>,
                parts: seq<string>, i: nat, st: ScanState): ScanState
    requires i < |parts|
  {
    var lr := ResultLen(d, rl, parts, i);
    var (lo, obj) := ObjectMatch(d, ol, parts, i);
    if lo == 0 && lr == 0 then st
    else if lr > lo then (if lr > st.matched then ScanState(lr, rp, true) else st)
    else if lo > st.matched then ScanState(lo, obj, false)
    else st
  }

  /** The scan over components n-1 down to 0, from state st. */
  function ScanFrom(d: Disk, ol: seq<seq<string>>, rl: seq<seq<string>>, rp: Option<string>,
                    parts: seq<string>, n: nat, st: ScanState): ScanState
    requires n <= |parts|
    decreases n
  {
    if n == 0 then st else ScanFrom(d, ol, rl, rp, parts, n - 1, Step(d, ol, rl, rp, parts, n - 1, st))
  }

  /** How well component i matches: the longer of its result and object
      lengths. */
  function Score(d: Disk, ol: seq<seq<string>>, rl: seq<seq<string>>, parts: seq<string>, i: nat): nat
    requires i < |parts|
  {
    var lr := ResultLen(d, rl, parts, i);
    var lo := ObjectMatch(d, ol, parts, i).0;
    if lr > lo then lr else lo
  }

  /** The state component i leaves when it wins: a result when its result
      length is strictly the longer, its object candidate otherwise. */
  function Pick(d: Disk, ol: seq<seq<string>>, rl: seq<seq<string>>, rp: Option<string>,
                parts: seq<string>, i: nat): ScanState
    requires i < |parts|
  {
    var lr := ResultLen(d, rl, parts, i);
    var (lo, obj) := ObjectMatch(d, ol, parts, i);
    if lr > lo then ScanState(lr, rp, true) else ScanState(lo, obj, false)
  }

  /** Component w is the match among components lo.. : its score is
      positive and the greatest, and every later component scores less. */
  predicate Beats(d: Disk, ol: seq<seq<string>>, rl: seq<seq<string>>, parts: seq<string>, w: nat, lo: nat)
    requires lo <= w < |parts|
  {
    Score(d, ol, rl, parts, w) > 0
    && (forall k :: lo <= k < |parts| ==> Score(d, ol, rl, parts, k) <= Score(d, ol, rl, parts, w))
    && (forall k :: w < k < |parts| ==> Score(d, ol, rl, parts, k) < Score(d, ol, rl, parts, w))
  }

  /** What the scan has settled after components lo.. : nothing when none
      of them matches, the pick of the best match otherwise. */
  predicate Settled(d: Disk, ol: seq<seq<string>>, rl: seq<seq<string>>, rp: Option<string>,
                    parts: seq<string>, lo: nat, init: ScanState, st: ScanState)
    requires lo <= |parts|
  {
    ((forall k :: lo <= k < |parts| ==> Score(d, ol, rl, parts, k) == 0) && st == init)
    || (exists w :: lo <= w < |parts| && Beats(d, ol, rl, parts, w, lo) && st == Pick(d, ol, rl, rp, parts, w))
  }

  lemma {:induction false} StepSettles(d: Disk, ol: seq<seq<string>>, rl: seq<seq<string>>, rp: Option<string>,
                                       parts: seq<string>, i: nat, init: ScanState, st: ScanState)
    requires i < |parts| && init.matched == -1
    requires Settled(d, ol, rl, rp, parts, i + 1, init, st)
    ensures Settled(d, ol, rl, rp, parts, i, init, Step(d, ol, rl, rp, parts, i, st))
  {
    var s := Score(d, ol, rl, parts, i);
    if (forall k :: i + 1 <= k < |parts| ==> Score(d, ol, rl, parts, k) == 0) && st == init {
      if s == 0 {
        assert Step(d, ol, rl, rp, parts, i, st) == st;
      } else {
        assert Step(d, ol, rl, rp, parts, i, st) == Pick(d, ol, rl, rp, parts, i);
        assert Beats(d, ol, rl, parts, i, i);
      }
    } else {
      var w :| i + 1 <= w < |parts| && Beats(d, ol, rl, parts, w, i + 1) && st == Pick(d, ol, rl, rp, parts, w);
      assert st.matched == Score(d, ol, rl, parts, w);
      if s <= Score(d, ol, rl, parts, w) {
        assert Step(d, ol, rl, rp, parts, i, st) == st;
        assert Beats(d, ol, rl, parts, w, i);
      } else {
        assert Step(d, ol, rl, rp, parts, i, st) == Pick(d, ol, rl, rp, parts, i);
        assert Beats(d, ol, rl, parts, i, i);
      }
    }
  }

  lemma {:induction false} ScanSettles(d: Disk, ol: seq<seq<string>>, rl: seq<seq<string>>, rp: Option<string>,
                                       parts: seq<string>, n: nat, init: ScanState, st: ScanState)
    requires n <= |parts| && init.matched == -1
    requires Settled(d, ol, rl, rp, parts, n, init, st)
    ensures Settled(d, ol, rl, rp, parts, 0, init, ScanFrom(d, ol, rl, rp, parts, n, st))
    decreases n
  {
    if n > 0 {
      var st' := Step(d, ol, rl, rp, parts, n - 1, st);
      StepSettles(d, ol, rl, rp, parts, n - 1, init, st);
      ScanSettles(d, ol, rl, rp, parts, n - 1, init, st');
      assert ScanFrom(d, ol, rl, rp, parts, n, st) == ScanFrom(d, ol, rl, rp, parts, n - 1, st');
    }
  }

  /** The scan keeps the best match: the component with the greatest
      score, the last one of them in the address when several tie, and it
      leaves the state it started from when no component matches. */
  lemma {:induction false} ScanChoosesBest(d: Disk, ol: seq<seq<string>>, rl: seq<seq<string>>, rp: Option<string>,
                                           parts: seq<string>, init: ScanState)
    requires init.matched == -1
    ensures var st := ScanFrom(d, ol, rl, rp, parts, |parts|, init);
      ((forall k :: 0 <= k < |parts| ==> Score(d, ol, rl, parts, k) == 0) ==> st == init)
      && ((exists k :: 0 <= k < |parts| && Score(d, ol, rl, parts, k) > 0) ==>
          exists w :: 0 <= w < |parts| && Beats(d, ol, rl, parts, w, 0) && st == Pick(d, ol, rl, rp, parts, w))
  {
    ScanSettles(d, ol, rl, rp, parts, |parts|, init, init);
    var st := ScanFrom(d, ol, rl, rp, parts, |parts|, init);
    if forall k :: 0 <= k < |parts| ==> Score(d, ol, rl, parts, k) == 0 {
      assert forall w :: 0 <= w < |parts| ==> !Beats(d, ol, rl, parts, w, 0);
    }
  }

  /** At most one component is the best match. */
  lemma {:induction false} BeatsUnique(d: Disk, ol: seq<seq<string>>, rl: seq<seq<string>>, parts: seq<string>,
                                       w1: nat, w2: nat)
    requires w1 < |parts| && w2 < |parts|
    requires Beats(d, ol, rl, parts, w1, 0) && Beats(d, ol, rl, parts, w2, 0)
    ensures w1 == w2
  {
    assert Score(d, ol, rl, parts, w1) == Score(d, ol, rl, parts, w2);
  }

  /** The address goes to the results exactly when, at its best-matching
      component, the result length is strictly greater than the object
      length: a tie goes to the object. */
  lemma {:induction false} ScanToResult(d: Disk, ol: seq<seq<string>>, rl: seq<seq<string>>, rp: Option<string>,
                                        parts: seq<string>, init: ScanState)
    requires init.matched == -1 && !init.toResult
    ensures ScanFrom(d, ol, rl, rp, parts, |parts|, init).toResult <==>
      exists w :: 0 <= w < |parts| && Beats(d, ol, rl, parts, w, 0)
                  && ResultLen(d, rl, parts, w) > ObjectMatch(d, ol, parts, w).0
  {
    ScanChoosesBest(d, ol, rl, rp, parts, init);
    var st := ScanFrom(d, ol, rl, rp, parts, |parts|, init);
    if st.toResult {
      assert st != init;
      var v :| 0 <= v < |parts| && Beats(d, ol, rl, parts, v, 0) && st == Pick(d, ol, rl, rp, parts, v);
      assert ResultLen(d, rl, parts, v) > ObjectMatch(d, ol, parts, v).0;
    }
    if exists w :: 0 <= w < |parts| && Beats(d, ol, rl, parts, w, 0)
                   && ResultLen(d, rl, parts, w) > ObjectMatch(d, ol, parts, w).0 {
      var w :| 0 <= w < |parts| && Beats(d, ol, rl, parts, w, 0)
               && ResultLen(d, rl, parts, w) > ObjectMatch(d, ol, parts, w).0;
      var v :| 0 <= v < |parts| && Beats(d, ol, rl, parts, v, 0) && st == Pick(d, ol, rl, rp, parts, v);
      BeatsUnique(d, ol, rl, parts, w, v);
    }
  }

  /** The scan over components, last to first. */
  method ScanDpf(d: Disk, ol: seq<seq<string>>, rl: seq<seq<string>>, rp: Option<string>,
                 parts: seq<string>, init: ScanState) returns (st: ScanState)
    ensures st == ScanFrom(d, ol, rl, rp, parts, |parts|, init)
  {
    st := init;
    var i := |parts| - 1;
    while i >= 0
      invariant -1 <= i < |parts|
      invariant ScanFrom(d, ol, rl, rp, parts, i + 1, st) == ScanFrom(d, ol, rl, rp, parts, |parts|, init)
      decreases i + 1
    {
      var lr := ResultLength(d, rl, parts, i);
      var lo, obj := ObjectLength(d, ol, parts, i);
      if lo == 0 && lr == 0 {
      } else if lr > lo {
        if lr > st.matched {
          st := ScanState(lr, rp, true);
        }
      } else {
        if lo > st.matched {
          st := ScanState(lo, obj, false);
        }
      }
      i := i - 1;
    }
  }

  /** The loop over the result lists for component i. */
  method ResultLength(d: Disk, rl: seq<seq<string>>, parts: seq<string>, i: nat) returns (len: nat)
    requires i < |parts|
    ensures len == ResultLen(d, rl, parts, i)
  {
    len := 0;
    var k := 0;
    while k < |rl|
      invariant 0 <= k <= |rl|
      invariant len == ResultLen(d, rl[..k], parts, i)
    {
      assert rl[..k + 1][..k] == rl[..k];
      var ls := rl[k];
      if parts[i] in ls {
        var j := LastIndexOf(ls, parts[i]);
        var c := CandidateOf(ls, j, parts, i);
        len := j;
        if !Exists(d, "/" + c) {
          len := 0;
        }
      }
      k := k + 1;
    }
    assert rl[..k] == rl;
  }

  /** The loop over the object lists for component i. The `j == -1` exit
      of the source cannot be taken once the list holds the component. */
  method ObjectLength(d: Disk, ol: seq<seq<string>>, parts: seq<string>, i: nat)
    returns (len: nat, obj: Option<string>)
    requires i < |parts|
    ensures (len, obj) == ObjectMatch(d, ol, parts, i)
  {
    len, obj := 0, None;
    var k := 0;
    while k < |ol|
      invariant 0 <= k <= |ol|
      invariant (len, obj) == ObjectMatch(d, ol[..k], parts, i)
    {
      assert ol[..k + 1][..k] == ol[..k];
      var ls := ol[k];
      if parts[i] in ls {
        var j := LastIndexOf(ls, parts[i]);
        var c := CandidateOf(ls, j, parts, i);
        len := j;
        if Exists(d, "/" + c) {
          obj := Some(c);
        } else {
          len := 0;
        }
      }
      k := k + 1;
    }
    assert ol[..k] == ol;
  }

  /** `while j >= 0 and ls[j] != addr_list[i]: j -= 1` */
  method LastIndexOf(ls: seq<string>, x: string) returns (j: int)
    ensures j == LastIndex(ls, x)
  {
    j := |ls| - 1;
    assert ls[..j + 1] == ls;
    while j >= 0 && ls[j] != x
      invariant -1 <= j < |ls|
      invariant LastIndex(ls[..j + 1], x) == LastIndex(ls, x)
      decreases j + 1
    {
      assert ls[..j + 1][..j] == ls[..j];
      j := j - 1;
    }
  }

  /** The two joining loops that build a candidate. */
  method CandidateOf(ls: seq<string>, j: nat, parts: seq<string>, i: nat) returns (c: string)
    requires j < |ls| && i < |parts|
    ensures c == ListCandidate(ls, j, parts, i)
  {
    var head := JoinFrom("", ls[..j + 1]);
    c := JoinFrom(head, parts[i + 1..]);
  }

  /** `for x in xs: s = os.path.join(s, x)` */
  method JoinFrom(base: string, xs: seq<string>) returns (s: string)
    ensures s == JoinAll(base, xs)
  {
    s := base;
    var k := 0;
    while k < |xs|
      invariant 0 <= k <= |xs|
      invariant s == JoinAll(base, xs[..k])
    {
      assert xs[..k + 1][..k] == xs[..k];
      s := PathJoin(s, xs[k]);
      k := k + 1;
    }
    assert xs[..k] == xs;
  }

  // address_mapper_dpf

  /** The output directory of allocation n under the result path. */
  function OutputDir(rp: string, n: nat): string {
    PathJoin(rp, "new_output_" + NatToString(n) + "/")
  }

  /** Distinct allocation numbers give distinct output directories. */
  lemma {:induction false} OutputDirsDistinct(rp: string, a: nat, b: nat)
    requires a != b
    ensures OutputDir(rp, a) != OutputDir(rp, b)
  {
    NatToStringInjective(a, b);
    var sa := "new_output_" + NatToString(a) + "/";
    var sb := "new_output_" + NatToString(b) + "/";
    assert !StartsWith(sa, "/") && !StartsWith(sb, "/") by {
      assert sa[0] == 'n' && sb[0] == 'n';
    }
    assert NatToString(a) == sa[11..|sa| - 1];
    assert NatToString(b) == sb[11..|sb| - 1];
    var sep := if rp == "" || EndsWith(rp, "/") then rp else rp + "/";
    assert OutputDir(rp, a) == sep + sa && OutputDir(rp, b) == sep + sb;
    assert sa == (sep + sa)[|sep|..];
    assert sb == (sep + sb)[|sep|..];
  }

  /** address_mapper_dpf with the disk and the allocation counter it
      leaves, under result path rp. */
  function MapDpfSpec(d: Disk, n: nat, rp: Option<string>, addr: string, ol: seq<seq<string>>,
                      rl: seq<seq<string>>, app: NameSet, path: string): (Result<string>, Disk, nat)
  {
    var viaApp := BackendDpfSpec(d, PathJoin(path, "application_sources"), addr, app);
    if Truthy(viaApp) then (Ok(viaApp.value), d, n)
    else
      var a := Normalise(addr);
      var (parts, filename) := SplitAddress(a);
      Conclude(d, n, rp, a, filename, ScanFrom(d, ol, rl, rp, parts, |parts|, ScanState(-1, viaApp, false)))
  }

  /** What address_mapper_dpf does with the settled scan of the normalised
      address a and its file name. */
  function Conclude(d: Disk, n: nat, rp: Option<string>, a: string, filename: Option<string>,
                    st: ScanState): (Result<string>, Disk, nat)
  {
    if st.toResult then
      if rp.None? then (Err(TypeError), d, n)
      else (Ok(OutputDir(rp.value, n)), WithDir(d, OutputDir(rp.value, n)), n + 1)
    else if Truthy(st.mapped) && Truthy(filename) then
      var m := "/" + PathJoin(st.mapped.value, filename.value);
      if Exists(d, m) then (Ok(m), d, n) else (Err(FileNotFound(NotFoundPrefix + a)), d, n)
    else if !Truthy(st.mapped) then (Err(FileNotFound(NotFoundPrefix + a)), d, n)
    else (Ok("/" + st.mapped.value), d, n)
  }

  /** What one mapping does: an application source is answered as it is;
      otherwise an address best matching a result takes the next output
      directory, creating it and advancing the counter by one, and any
      other answer is an existing absolute path, with the disk and the
      counter unchanged. The only errors are the FileNotFoundError naming
      the normalised address and, without a result path, the TypeError of
      joining onto None. */
  lemma {:induction false} MapDpfOutcome(d: Disk, n: nat, rp: Option<string>, addr: string,
                                         ol: seq<seq<string>>, rl: seq<seq<string>>, app: NameSet, path: string)
    ensures var (r, d', n') := MapDpfSpec(d, n, rp, addr, ol, rl, app, path);
      var viaApp := BackendDpfSpec(d, PathJoin(path, "application_sources"), addr, app);
      (Truthy(viaApp) ==> r == Ok(viaApp.value) && d' == d && n' == n)
      && (n' == n || n' == n + 1)
      && (n' == n + 1 ==> rp.Some? && r == Ok(OutputDir(rp.value, n)) && d' == WithDir(d, OutputDir(rp.value, n)))
      && (n' == n ==> d' == d)
      && (r.Ok? ==> Exists(d', r.value))
      && (r.Ok? && n' == n && !Truthy(viaApp) ==> StartsWith(r.value, "/"))
      && (r.Err? ==> (r.error == TypeError && rp.None?) || r.error == FileNotFound(NotFoundPrefix + Normalise(addr)))
  {
    var viaApp := BackendDpfSpec(d, PathJoin(path, "application_sources"), addr, app);
    if !Truthy(viaApp) {
      var a := Normalise(addr);
      var (parts, filename) := SplitAddress(a);
      var init := ScanState(-1, viaApp, false);
      var st := ScanFrom(d, ol, rl, rp, parts, |parts|, init);
      ScanChoosesBest(d, ol, rl, rp, parts, init);
      if !st.toResult && Truthy(st.mapped) && !Truthy(filename) {
        assert st != init;
        var w :| 0 <= w < |parts| && Beats(d, ol, rl, parts, w, 0) && st == Pick(d, ol, rl, rp, parts, w);
        assert st.mapped == ObjectMatch(d, ol, parts, w).1;
      }
    }
  }

  /** The globals RESULT_PATH and OUTPUT_NUM of the DPF module: where
      result-bound addresses go, and the number of the next output
      directory. */
  class OutputAllocator {
    var resultPath: Option<string>
    var outputNum: nat

    /** The globals as the module defines them. */
    constructor ()
      ensures resultPath == None && outputNum == 0
    {
      resultPath := None;
      outputNum := 0;
    }

    /** run_dpf's `RESULT_PATH = os.path.join(execution_path, "Result")`. */
    method SetExecutionPath(executionPath: string)
      modifies this
      ensures resultPath == Some(PathJoin(executionPath, "Result"))
      ensures outputNum == old(outputNum)
    {
      resultPath := Some(PathJoin(executionPath, "Result"));
    }

    /** address_mapper_dpf(addr, object_list, result_list,
        application_sources_hash_map, path) */
    method MapAddress(fs: FileSystem, addr: string, ol: seq<seq<string>>, rl: seq<seq<string>>,
                      app: NameSet, path: string) returns (r: Result<string>)
      modifies this, fs
      ensures resultPath == old(resultPath)
      ensures (r, fs.disk, outputNum) == MapDpfSpec(old(fs.disk), old(outputNum), resultPath, addr, ol, rl, app, path)
    {
      var viaApp := BackendDpf(fs.disk, PathJoin(path, "application_sources"), addr, app);
      if Truthy(viaApp) {
        return Ok(viaApp.value);
      }
      var a := addr;
      if StartsWith(a, "./") {
        a := a[1..];
      }
      if !StartsWith(a, "/") {
        a := "/" + a;
      }
      assert a == Normalise(addr);
      var (parts, filename) := SplitAddress(a);
      var st := ScanDpf(fs.disk, ol, rl, resultPath, parts, ScanState(-1, viaApp, false));
      r := Finish(fs, a, filename, st);
    }

    /** The end of address_mapper_dpf, after the scan. */
    method Finish(fs: FileSystem, a: string, filename: Option<string>, st: ScanState) returns (r: Result<string>)
      modifies this, fs
      ensures resultPath == old(resultPath)
      ensures (r, fs.disk, outputNum) == Conclude(old(fs.disk), old(outputNum), resultPath, a, filename, st)
    {
      if st.toResult {
        if resultPath.None? {
          return Err(TypeError);
        }
        var out := PathJoin(resultPath.value, "new_output_" + NatToString(outputNum) + "/");
        fs.MakeDir(out);
        outputNum := outputNum + 1;
        return Ok(out);
      }
      if Truthy(st.mapped) && Truthy(filename) {
        var m := "/" + PathJoin(st.mapped.value, filename.value);
        if !Exists(fs.disk, m) {
          return Err(FileNotFound(NotFoundPrefix + a));
        }
        return Ok(m);
      }
      if !Truthy(st.mapped) {
        return Err(FileNotFound(NotFoundPrefix + a));
      }
      return Ok("/" + st.mapped.value);
    }
  }
}
