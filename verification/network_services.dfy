/**
 * A network service (NetworkService.py): a named chain of jobs, each run by
 * a microservice at a scheduled time slot, carrying some number of flows.
 */
module NetworkServices {
  import opened Common
  import opened Records

  /** The value of a network service, as an experiment's deep copy holds it. */
  datatype NetworkServiceRecord = NetworkServiceRecord(name: string, flows: int, jobs: seq<Job>)

  /**
   * The jobs with every schedule slot moved by `offset`: one job per input
   * job, in order, with the same microservice and length.
   */
  function Offset(jobs: seq<Job>, offset: int): (r: seq<Job>)
    ensures |r| == |jobs|
    ensures forall i :: 0 <= i < |jobs| ==>
              r[i].ms == jobs[i].ms && r[i].length == jobs[i].length &&
              r[i].schedule == jobs[i].schedule + offset
  {
    if jobs == [] then []
    else [jobs[0].(schedule := jobs[0].schedule + offset)] + Offset(jobs[1..], offset)
  }

  /** Two offsets in a row are one offset by their sum. */
  lemma {:induction false} OffsetCompose(jobs: seq<Job>, a: int, b: int)
    ensures Offset(Offset(jobs, a), b) == Offset(jobs, a + b)
  {
    var lhs, rhs := Offset(Offset(jobs, a), b), Offset(jobs, a + b);
    assert |lhs| == |rhs|;
    forall i | 0 <= i < |lhs| ensures lhs[i] == rhs[i] {
      assert lhs[i].schedule == jobs[i].schedule + a + b;
    }
  }

  /** Offsetting by zero changes nothing. */
  lemma {:induction false} OffsetZero(jobs: seq<Job>)
    ensures Offset(jobs, 0) == jobs
  {
    var r := Offset(jobs, 0);
    forall i | 0 <= i < |jobs| ensures r[i] == jobs[i] {
      assert r[i].schedule == jobs[i].schedule;
    }
  }

  class NetworkService {
    const name: string
    var flows: int
    var jobs: seq<Job>

    /** The service's current value; reading it is a deep copy. */
    function Snapshot(): NetworkServiceRecord
      reads this
    {
      NetworkServiceRecord(name, flows, jobs)
    }

    constructor (name: string, flows: int)
      ensures this.name == name && this.flows == flows && jobs == []
    {
      this.name := name;
      this.flows := flows;
      jobs := [];
    }

    /** The `flows` property setter. */
    method SetFlows(flows: int)
      modifies this
      ensures this.flows == flows && jobs == old(jobs)
    {
      this.flows := flows;
    }

    /** Appends `job`; the jobs already there keep their order. */
    method AddJob(job: Job)
      modifies this
      ensures jobs == old(jobs) + [job]
      ensures flows == old(flows)
    {
      jobs := jobs + [job];
    }

    /** Moves every job's schedule slot by `offset`, one job at a time. */
    method OffsetSchedule(offset: int)
      modifies this
      ensures jobs == Offset(old(jobs), offset)
      ensures flows == old(flows)
    {
      var i := 0;
      while i < |jobs|
        invariant 0 <= i <= |jobs| == |old(jobs)|
        invariant jobs[..i] == Offset(old(jobs)[..i], offset)
        invariant jobs[i..] == old(jobs)[i..]
        invariant flows == old(flows)
      {
        var job := jobs[i];
        jobs := jobs[i := job.(schedule := job.schedule + offset)];
        i := i + 1;
      }
      assert jobs == jobs[..i] && old(jobs) == old(jobs)[..i];
    }
  }

  /**
   * Builds a network service from three parallel lists: job i runs on
   * microservice `microservices[i]`, has length `scheduleLength[i]` and is
   * scheduled at `schedule[i]`. Lists of different lengths are refused.
   */
  method CreateNetworkService(name: string, microservices: seq<int>, schedule: seq<int>,
                              scheduleLength: seq<int>, flows: int := 1)
    returns (r: Result<NetworkService>)
    ensures r.Failure? <==>
              |microservices| != |schedule| || |microservices| != |scheduleLength|
    ensures r.Failure? ==>
              r.error == RuntimeError("Lists of microservices, schedule amd length are miss matching!")
    ensures r.Success? ==> fresh(r.value)
    ensures r.Success? ==> r.value.name == name && r.value.flows == flows
    ensures r.Success? ==> |r.value.jobs| == |microservices|
    ensures r.Success? ==> forall i :: 0 <= i < |microservices| ==>
              r.value.jobs[i] == Job(microservices[i], scheduleLength[i], schedule[i])
  {
    if |microservices| != |schedule| || |microservices| != |scheduleLength|
       || |schedule| != |scheduleLength| {
      return Failure(RuntimeError("Lists of microservices, schedule amd length are miss matching!"));
    }
    var ns := new NetworkService(name, flows);
    for index := 0 to |microservices|
      invariant ns.name == name && ns.flows == flows
      invariant |ns.jobs| == index
      invariant forall i :: 0 <= i < index ==>
                  ns.jobs[i] == Job(microservices[i], scheduleLength[i], schedule[i])
    {
      var job := Job(ms := microservices[index], length := scheduleLength[index],
                     schedule := schedule[index]);
      ns.AddJob(job);
    }
    return Success(ns);
  }
}
