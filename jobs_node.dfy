/**
 * The jobs of a configuration node: a list of job nodes, replaced as a whole by
 * `setJobs` and searched by name by `getJob`.
 */
module JobsNode {
  import opened Wrappers

  /** A job node; only its name matters to the lookup. */
  datatype JobNode = JobNode(name: string, typeName: string)

  class JobsNode {
    var jobs: seq<JobNode>

    /** A fresh node has no jobs. */
    constructor()
      ensures jobs == []
    {
      jobs := [];
    }

    /** `setJobs`: the given list replaces the old one entirely. */
    method SetJobs(jobs: seq<JobNode>)
      modifies this
      ensures this.jobs == jobs
    {
      this.jobs := jobs;
    }

    function GetJobs(): seq<JobNode>
      reads this
    {
      jobs
    }

    /** `getJob`; its contract is the one of `FindJob`. */
    function GetJob(name: string): Option<JobNode>
      reads this
    {
      FindJob(jobs, name)
    }
  }

  /**
   * The search `getJob` runs over a job list: the first job whose name is
   * identical to the given one, or null when no job has that name.
   */
  function FindJob(jobs: seq<JobNode>, name: string): (r: Option<JobNode>)
    ensures r.None? <==> forall i :: 0 <= i < |jobs| ==> jobs[i].name != name
    ensures r.Some? ==> r.value.name == name &&
                        exists i :: 0 <= i < |jobs| && jobs[i] == r.value && forall j :: 0 <= j < i ==> jobs[j].name != name
  {
    if jobs == [] then None
    else if jobs[0].name == name then Some(jobs[0])
    else
      var r := FindJob(jobs[1..], name);
      assert forall i :: 1 <= i < |jobs| ==> jobs[i] == jobs[1..][i - 1];
      if r.Some? then
        var i :| 0 <= i < |jobs[1..]| && jobs[1..][i] == r.value && forall j :: 0 <= j < i ==> jobs[1..][j].name != name;
        assert jobs[i + 1] == r.value;
        r
      else r
  }

  /** Once `setJobs(j)` has run, `getJobs()` returns j and `getJob` searches j. */
  method SetThenGet(node: JobsNode, jobs: seq<JobNode>, name: string) returns (all: seq<JobNode>, found: Option<JobNode>)
    modifies node
    ensures all == jobs
    ensures found == FindJob(jobs, name)
  {
    node.SetJobs(jobs);
    all := node.GetJobs();
    found := node.GetJob(name);
  }

  /** A job with the given name that no earlier job shares is what `getJob` finds. */
  lemma {:induction false} FirstNamedJobIsFound(jobs: seq<JobNode>, i: nat)
    requires i < |jobs| && forall j :: 0 <= j < i ==> jobs[j].name != jobs[i].name
    ensures FindJob(jobs, jobs[i].name) == Some(jobs[i])
  {
    if i > 0 {
      assert jobs[1..][i - 1] == jobs[i];
      FirstNamedJobIsFound(jobs[1..], i - 1);
    }
  }
}
