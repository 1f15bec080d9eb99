/** The helpers of reproducibility_methods/utilsr.py that the newer command
    generator imports. Its get_file_names is the same loop as the one of
    utils.py and is Catalog.GetFileNames; the other two differ from their
    utils.py namesakes in what they return on the unusual path. */
module UtilsR {
  import opened Common
  import opened Dicts
  import opened Catalog

  /** get_results_dict of utilsr.py: the CreateAction's results by name,
      and None, not {}, when the action has no result property. */
  function ResultsDictR(crate: Crate): Result<Option<Dict<string, string>>> {
    if crate.action.None? then Err(TypeError)
    else if crate.action.value.results.None? then Ok(None)
    else
      var rs := crate.action.value.results.value;
      if AllResultsNamed(rs) then Ok(Some(FromPairs(ResultPairs(rs)))) else Err(KeyError("name"))
  }

  /** get_results_dict(crate) of utilsr.py */
  method GetResultsDictR(crate: Crate) returns (r: Result<Option<Dict<string, string>>>)
    ensures r == ResultsDictR(crate)
  {
    var act := ActionOf(crate);
    if act.Err? {
      return Err(act.error);
    }
    if act.value.results.None? {
      return Ok(None);
    }
    var filled := FillResults(act.value.results.value);
    if filled.Err? {
      return Err(filled.error);
    }
    return Ok(Some(filled.value));
  }

  /** The dict of a crate that records results maps every result name to
      the id of its last result of that name, and holds no other key. */
  lemma {:induction false} ResultsDictRLookup(crate: Crate, name: string)
    requires ResultsDictR(crate).Ok? && ResultsDictR(crate).value.Some?
    ensures var d := ResultsDictR(crate).value.value;
      var rs := crate.action.value.results.value;
      UniqueKeys(d)
      && (HasKey(d, name) <==> exists i :: 0 <= i < |rs| && rs[i].name == Some(name))
  {
    var rs := crate.action.value.results.value;
    ResultsDictLookup(rs, name);
  }

  /** The two get_results_dict agree on every crate but one that records
      no result property, for which utils.py answers {} and utilsr.py
      None. */
  lemma {:induction false} ResultsDictVersions(crate: Crate)
    ensures ResultsDictR(crate).Err? <==> ResultsDict(crate).Err?
    ensures match ResultsDictR(crate) case Ok(_) => true case Err(e) => ResultsDict(crate) == Err(e)
    ensures ResultsDictR(crate) == Ok(None) ==> ResultsDict(crate) == Ok([])
    ensures ResultsDictR(crate).Ok? && ResultsDictR(crate).value.Some? ==>
      ResultsDict(crate) == Ok(ResultsDictR(crate).value.value)
  {
  }

  /** check_slurm_cluster of utilsr.py: (True, stdout) when squeue exits 0,
      (False, message) when it raises, and None when it exits non-zero,
      since that path falls off the end of the function. */
  function CheckSlurmClusterR(run: SqueueRun): (r: Option<(bool, string)>)
    ensures r.None? <==> run.Completed? && run.returncode != 0
    ensures r.Some? ==> (r.value.0 <==> run.Completed?)
    ensures r.Some? && r.value.0 ==> r.value.1 == run.stdout
    ensures run.Raised? ==> r == Some((false, run.message))
  {
    match run
    case Raised(m) => Some((false, m))
    case Completed(code, out) => if code == 0 then Some((true, out)) else None
  }

  /** The two versions agree except on a non-zero exit, where utils.py
      answers (False, ...) and utilsr.py answers None. */
  lemma {:induction false} SlurmCheckVersions(run: SqueueRun)
    ensures CheckSlurmClusterR(run).Some? ==> CheckSlurmClusterR(run).value == CheckSlurmCluster(run)
    ensures CheckSlurmClusterR(run).None? ==> !CheckSlurmCluster(run).0
  {
  }
}
