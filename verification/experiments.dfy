/**
 * An experiment (Experiment.py): a name, simulation parameters, one host
 * type, and the experiment's own copies of its microservices and network
 * services, whose resources and flow counts it can then edit.
 */
module Experiments {
  import opened Common
  import opened Records
  import opened Microservices
  import opened NetworkServices

  /** The three resources `scale_all` and `scale` can change. */
  datatype Resource = Cpu | Ram | Bw

  /** The resource a name denotes: exactly "cpu", "ram" or "bw". */
  function ParseResource(resource: string): (r: Option<Resource>)
    ensures r == Some(Cpu) <==> resource == "cpu"
    ensures r == Some(Ram) <==> resource == "ram"
    ensures r == Some(Bw) <==> resource == "bw"
  {
    if resource == "cpu" then Some(Cpu)
    else if resource == "ram" then Some(Ram)
    else if resource == "bw" then Some(Bw)
    else None
  }

  /** How much of `res` the microservice asks for. */
  function Amount(m: MicroserviceRecord, res: Resource): int
  {
    match res
    case Cpu => m.cpus
    case Ram => m.ram
    case Bw => m.bw
  }

  /** The microservice with `value` added to resource `res` and nothing else changed. */
  function Bump(m: MicroserviceRecord, res: Resource, value: int): (r: MicroserviceRecord)
    ensures Amount(r, res) == Amount(m, res) + value
    ensures forall other: Resource :: other != res ==> Amount(r, other) == Amount(m, other)
    ensures r.(cpus := m.cpus, ram := m.ram, bw := m.bw) == m
  {
    match res
    case Cpu => m.(cpus := m.cpus + value)
    case Ram => m.(ram := m.ram + value)
    case Bw => m.(bw := m.bw + value)
  }

  /** Every microservice with `value` added to resource `res`, in the same order. */
  function ScaleEvery(ms: seq<MicroserviceRecord>, res: Resource, value: int): (r: seq<MicroserviceRecord>)
    ensures |r| == |ms|
    ensures forall i :: 0 <= i < |ms| ==> r[i] == Bump(ms[i], res, value)
  {
    if ms == [] then [] else [Bump(ms[0], res, value)] + ScaleEvery(ms[1..], res, value)
  }

  /** Scaling everything by `a` and then by `b` is scaling it by `a + b`. */
  lemma {:induction false} ScaleEveryCompose(ms: seq<MicroserviceRecord>, res: Resource, a: int, b: int)
    ensures ScaleEvery(ScaleEvery(ms, res, a), res, b) == ScaleEvery(ms, res, a + b)
  {
    var lhs, rhs := ScaleEvery(ScaleEvery(ms, res, a), res, b), ScaleEvery(ms, res, a + b);
    forall i | 0 <= i < |ms| ensures lhs[i] == rhs[i] {
      assert Amount(lhs[i], res) == Amount(rhs[i], res);
    }
  }

  /** `k` is the position of the first microservice called `name`. */
  predicate IsFirstNamed(ms: seq<MicroserviceRecord>, name: string, k: int)
  {
    0 <= k < |ms| && ms[k].name == name && forall j :: 0 <= j < k ==> ms[j].name != name
  }

  /**
   * Adds `value` to resource `res` of the first microservice called `name`;
   * all others, and all microservices when none has that name, stay as they were.
   */
  function ScaleNamed(ms: seq<MicroserviceRecord>, name: string, res: Resource, value: int)
    : (r: seq<MicroserviceRecord>)
    ensures |r| == |ms|
    ensures forall i :: IsFirstNamed(ms, name, i) ==> r[i] == Bump(ms[i], res, value)
    ensures forall i :: 0 <= i < |ms| && !IsFirstNamed(ms, name, i) ==> r[i] == ms[i]
  {
    if ms == [] then []
    else if ms[0].name == name then [Bump(ms[0], res, value)] + ms[1..]
    else [ms[0]] + ScaleNamed(ms[1..], name, res, value)
  }

  /** The names of the microservices, in order. */
  function Names(ms: seq<MicroserviceRecord>): seq<string>
  {
    seq(|ms|, i requires 0 <= i < |ms| => ms[i].name)
  }

  /** Neither way of scaling adds, drops, reorders or renames microservices. */
  lemma ScalingKeepsNames(ms: seq<MicroserviceRecord>, name: string, res: Resource, value: int)
    ensures Names(ScaleEvery(ms, res, value)) == Names(ms)
    ensures Names(ScaleNamed(ms, name, res, value)) == Names(ms)
  {
  }

  /** When no microservice is called `name`, scaling it changes nothing. */
  lemma ScaleNamedWithoutMatch(ms: seq<MicroserviceRecord>, name: string, res: Resource, value: int)
    requires forall i :: 0 <= i < |ms| ==> ms[i].name != name
    ensures ScaleNamed(ms, name, res, value) == ms
  {
  }

  /** Scaling by name changes at most one microservice. */
  lemma ScaleNamedChangesAtMostOne(ms: seq<MicroserviceRecord>, name: string, res: Resource, value: int,
                                   i: int, j: int)
    requires 0 <= i < |ms| && 0 <= j < |ms|
    requires ScaleNamed(ms, name, res, value)[i] != ms[i]
    requires ScaleNamed(ms, name, res, value)[j] != ms[j]
    ensures i == j
  {
  }

  /**
   * When some microservice is called `name`, scaling by name adds `value` to
   * the first of them.
   */
  lemma ScaleNamedHitsFirstMatch(ms: seq<MicroserviceRecord>, name: string, res: Resource, value: int,
                                 i: int)
    requires 0 <= i < |ms| && ms[i].name == name
    ensures exists k :: 0 <= k <= i && IsFirstNamed(ms, name, k)
                        && ScaleNamed(ms, name, res, value)[k] == Bump(ms[k], res, value)
  {
    FirstNamedExists(ms, name, i);
  }

  /** When some microservice is called `name`, a first one is. */
  lemma {:induction false} FirstNamedExists(ms: seq<MicroserviceRecord>, name: string, i: int)
    requires 0 <= i < |ms| && ms[i].name == name
    ensures exists k :: 0 <= k <= i && IsFirstNamed(ms, name, k)
  {
    if forall j :: 0 <= j < i ==> ms[j].name != name {
      assert IsFirstNamed(ms, name, i);
    } else {
      var j :| 0 <= j < i && ms[j].name == name;
      FirstNamedExists(ms, name, j);
    }
  }

  /** Every network service set to carry `flows` flows; names and jobs kept. */
  function WithFlows(ns: seq<NetworkServiceRecord>, flows: int): (r: seq<NetworkServiceRecord>)
    ensures |r| == |ns|
    ensures forall i :: 0 <= i < |ns| ==>
              r[i].flows == flows && r[i].name == ns[i].name && r[i].jobs == ns[i].jobs
  {
    if ns == [] then [] else [ns[0].(flows := flows)] + WithFlows(ns[1..], flows)
  }

  /** Setting the flow count twice keeps only the second value. */
  lemma {:induction false} WithFlowsLastWins(ns: seq<NetworkServiceRecord>, a: int, b: int)
    ensures WithFlows(WithFlows(ns, a), b) == WithFlows(ns, b)
  {
    var lhs, rhs := WithFlows(WithFlows(ns, a), b), WithFlows(ns, b);
    forall i | 0 <= i < |ns| ensures lhs[i] == rhs[i] {
      assert lhs[i].name == rhs[i].name;
    }
  }

  class Experiment {
    const name: string
    const config: SimConfig
    const host: Host
    var microservices: seq<MicroserviceRecord>
    var networkServices: seq<NetworkServiceRecord>

    /**
     * Stores name, parameters and host, and takes deep copies of the two
     * lists, so later edits on either side do not reach the other.
     */
    constructor (name: string, config: SimConfig, host: Host,
                 microservices: seq<Microservice>, networkServices: seq<NetworkService>)
      ensures this.name == name && this.config == config && this.host == host
      ensures |this.microservices| == |microservices|
      ensures forall i :: 0 <= i < |microservices| ==>
                this.microservices[i] == microservices[i].Snapshot()
      ensures |this.networkServices| == |networkServices|
      ensures forall i :: 0 <= i < |networkServices| ==>
                this.networkServices[i] == networkServices[i].Snapshot()
    {
      this.name := name;
      this.config := config;
      this.host := host;
      this.microservices := seq(|microservices|, i requires 0 <= i < |microservices|
                                  reads microservices => microservices[i].Snapshot());
      this.networkServices := seq(|networkServices|, i requires 0 <= i < |networkServices|
                                    reads networkServices => networkServices[i].Snapshot());
    }

    /**
     * Adds `value` to resource `resource` ("cpu", "ram" or "bw") of every
     * microservice; any other resource name raises and changes nothing.
     */
    method ScaleAll(resource: string, value: int) returns (r: Outcome)
      modifies this
      ensures ParseResource(resource).None? ==>
                r == Fail(RuntimeWarning("Resource " + resource + " does not exist."))
                && microservices == old(microservices)
      ensures ParseResource(resource).Some? ==>
                r == Pass
                && microservices == ScaleEvery(old(microservices), ParseResource(resource).value, value)
      ensures networkServices == old(networkServices)
    {
      var res := ParseResource(resource);
      if res.None? {
        return Fail(RuntimeWarning("Resource " + resource + " does not exist."));
      }
      var i := 0;
      while i < |microservices|
        invariant 0 <= i <= |microservices| == |old(microservices)|
        invariant forall j :: 0 <= j < i ==> microservices[j] == Bump(old(microservices)[j], res.value, value)
        invariant microservices[i..] == old(microservices)[i..]
        invariant networkServices == old(networkServices)
      {
        microservices := microservices[i := Bump(microservices[i], res.value, value)];
        i := i + 1;
      }
      return Pass;
    }

    /**
     * Adds `value` to resource `resource` of the first microservice called
     * `msName`. No such microservice is not an error. With a resource name
     * other than "cpu", "ram" or "bw" nothing is searched and the error
     * raised is always the "not found" one: the flag it tests is still unset.
     */
    method Scale(msName: string, resource: string, value: int) returns (r: Outcome)
      modifies this
      ensures ParseResource(resource).None? ==>
                r == Fail(RuntimeWarning("Microservice " + msName + " not found."))
                && microservices == old(microservices)
      ensures ParseResource(resource).Some? ==>
                r == Pass
                && microservices == ScaleNamed(old(microservices), msName, ParseResource(resource).value, value)
      ensures networkServices == old(networkServices)
    {
      var found := false;
      var res := ParseResource(resource);
      if res.Some? {
        var i := 0;
        while i < |microservices|
          invariant 0 <= i <= |microservices|
          invariant microservices == old(microservices)
          invariant forall j :: 0 <= j < i ==> microservices[j].name != msName
        {
          if microservices[i].name == msName {
            assert IsFirstNamed(microservices, msName, i);
            microservices := microservices[i := Bump(microservices[i], res.value, value)];
            found := true;
            break;
          }
          i := i + 1;
        }
        r := Pass;
      } else if !found {
        r := Fail(RuntimeWarning("Microservice " + msName + " not found."));
      } else {
        r := Fail(RuntimeWarning("Resource " + resource + " does not exist."));
      }
    }

    /** Gives every network service `numFlows` flows. */
    method SetNumFlows(numFlows: int)
      modifies this
      ensures networkServices == WithFlows(old(networkServices), numFlows)
      ensures microservices == old(microservices)
    {
      var i := 0;
      while i < |networkServices|
        invariant 0 <= i <= |networkServices| == |old(networkServices)|
        invariant forall j :: 0 <= j < i ==> networkServices[j] == old(networkServices)[j].(flows := numFlows)
        invariant networkServices[i..] == old(networkServices)[i..]
        invariant microservices == old(microservices)
      {
        networkServices := networkServices[i := networkServices[i].(flows := numFlows)];
        i := i + 1;
      }
    }
  }
}
