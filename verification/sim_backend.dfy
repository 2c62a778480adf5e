/**
 * The simulation backend (Backend.py): turns an experiment into the
 * configuration document the simulation engine reads, and derives the file
 * name, output directory and engine command line for one run.
 *
 * The document has four sections, in this order:
 *   Config          - the simulation parameters,
 *   Hosts           - one entry per host type,
 *   Microservices   - one entry per microservice, with its auto-scale rules,
 *   NetworkServices - one entry per network service, with its jobs.
 * `ParseConfig` reads such a document back, checking every key at its
 * position; the round-trip lemmas say that it recovers the inputs exactly.
 */
module SimBackend {
  import opened Common
  import opened Records
  import opened Microservices
  import opened NetworkServices
  import opened Experiments
  import opened Documents

  /** What a configuration document describes. */
  datatype SimInput = SimInput(
    config: SimConfig,
    hosts: seq<Host>,
    microservices: seq<MicroserviceRecord>,
    networkServices: seq<NetworkServiceRecord>)

  // ---------------------------------------------------------------- encoding

  function ConfigSection(c: SimConfig): Json
  {
    JObject([("interval", JFloat(c.interval)),
             ("sampleInterval", JFloat(c.sampleInterval)),
             ("stepSize", JFloat(c.stepSize)),
             ("seed", JInt(c.seed))])
  }

  /** A host; its CPU count is written as "pes", its replica count as "replica". */
  function HostEntry(h: Host): Json
  {
    JObject([("replica", JInt(h.replicas)),
             ("ram", JInt(h.ram)),
             ("bw", JInt(h.bw)),
             ("storage", JInt(h.storage)),
             ("pes", JInt(h.cpus)),
             ("maxPower", JFloat(h.maxPower)),
             ("staticPower", JFloat(h.staticPower)),
             ("vmScheduler", JString(h.vmScheduler))])
  }

  function AutoScaleEntry(a: AutoScale): Json
  {
    JObject([("telemetry", JString(a.telemetry)), ("threshold", JFloat(a.threshold))])
  }

  function MicroserviceEntry(m: MicroserviceRecord): Json
  {
    JObject([("name", JString(m.name)),
             ("size", JInt(m.size)),
             ("cpu", JInt(m.cpus)),
             ("ram", JInt(m.ram)),
             ("bw", JInt(m.bw)),
             ("replicas", JInt(m.replicas)),
             ("maxReplicas", JInt(m.maxReplicas)),
             ("cpuRatio", JInt(m.cpuRatio)),
             ("ramRatio", JInt(m.ramRatio)),
             ("bwRatio", JInt(m.bwRatio)),
             ("idleCPU", JFloat(m.idleCpu)),
             ("idleRAM", JFloat(m.idleRam)),
             ("idleBW", JFloat(m.idleBw)),
             ("autoScale", JArray(MapSeq(m.autoScale, AutoScaleEntry)))])
  }

  /**
   * A job. The source reads an `ms_id` attribute that jobs do not have; the
   * model writes the job's microservice index `ms` there.
   */
  function JobEntry(j: Job): Json
  {
    JObject([("ms", JInt(j.ms)), ("length", JInt(j.length)), ("schedule", JInt(j.schedule))])
  }

  function NetworkServiceEntry(n: NetworkServiceRecord): Json
  {
    JObject([("name", JString(n.name)),
             ("flows", JInt(n.flows)),
             ("Job", JArray(MapSeq(n.jobs, JobEntry)))])
  }

  /** The configuration document for the given parameters and lists. */
  function GenerateConfig(config: SimConfig, hosts: seq<Host>,
                          microservices: seq<MicroserviceRecord>,
                          networkServices: seq<NetworkServiceRecord>): (doc: Json)
    ensures doc.JObject?
    ensures Keys(doc.members) == ["Config", "Hosts", "Microservices", "NetworkServices"]
  {
    JObject([("Config", ConfigSection(config)),
             ("Hosts", JArray(MapSeq(hosts, HostEntry))),
             ("Microservices", JArray(MapSeq(microservices, MicroserviceEntry))),
             ("NetworkServices", JArray(MapSeq(networkServices, NetworkServiceEntry)))])
  }

  // ---------------------------------------------------------------- decoding

  function ParseConfigSection(j: Json): Option<SimConfig>
  {
    if !j.JObject? || |j.members| != 4 then None
    else
      var m := j.members;
      var interval :- AsFloat(At(m, 0, "interval"));
      var sampleInterval :- AsFloat(At(m, 1, "sampleInterval"));
      var stepSize :- AsFloat(At(m, 2, "stepSize"));
      var seed :- AsInt(At(m, 3, "seed"));
      Some(SimConfig(seed, interval, sampleInterval, stepSize))
  }

  function ParseHost(j: Json): Option<Host>
  {
    if !j.JObject? || |j.members| != 8 then None
    else
      var m := j.members;
      var replicas :- AsInt(At(m, 0, "replica"));
      var ram :- AsInt(At(m, 1, "ram"));
      var bw :- AsInt(At(m, 2, "bw"));
      var storage :- AsInt(At(m, 3, "storage"));
      var cpus :- AsInt(At(m, 4, "pes"));
      var maxPower :- AsFloat(At(m, 5, "maxPower"));
      var staticPower :- AsFloat(At(m, 6, "staticPower"));
      var vmScheduler :- AsString(At(m, 7, "vmScheduler"));
      Some(Host(cpus, ram, bw, storage, staticPower, maxPower, replicas, vmScheduler))
  }

  function ParseAutoScale(j: Json): Option<AutoScale>
  {
    if !j.JObject? || |j.members| != 2 then None
    else
      var telemetry :- AsString(At(j.members, 0, "telemetry"));
      var threshold :- AsFloat(At(j.members, 1, "threshold"));
      Some(AutoScale(telemetry, threshold))
  }

  /** Positions 1 to 6 of a microservice entry: image size, demands, replica bounds. */
  function ParseSizing(m: seq<(string, Json)>): Option<(int, int, int, int, int, int)>
  {
    var size :- AsInt(At(m, 1, "size"));
    var cpus :- AsInt(At(m, 2, "cpu"));
    var ram :- AsInt(At(m, 3, "ram"));
    var bw :- AsInt(At(m, 4, "bw"));
    var replicas :- AsInt(At(m, 5, "replicas"));
    var maxReplicas :- AsInt(At(m, 6, "maxReplicas"));
    Some((size, cpus, ram, bw, replicas, maxReplicas))
  }

  /** Positions 7 to 12 of a microservice entry: per-flow ratios and idle demands. */
  function ParseRatios(m: seq<(string, Json)>): Option<(int, int, int, Float, Float, Float)>
  {
    var cpuRatio :- AsInt(At(m, 7, "cpuRatio"));
    var ramRatio :- AsInt(At(m, 8, "ramRatio"));
    var bwRatio :- AsInt(At(m, 9, "bwRatio"));
    var idleCpu :- AsFloat(At(m, 10, "idleCPU"));
    var idleRam :- AsFloat(At(m, 11, "idleRAM"));
    var idleBw :- AsFloat(At(m, 12, "idleBW"));
    Some((cpuRatio, ramRatio, bwRatio, idleCpu, idleRam, idleBw))
  }

  function ParseMicroservice(j: Json): Option<MicroserviceRecord>
  {
    if !j.JObject? || |j.members| != 14 then None
    else
      var m := j.members;
      var name :- AsString(At(m, 0, "name"));
      var sizing :- ParseSizing(m);
      var ratios :- ParseRatios(m);
      var rules :- AsArray(At(m, 13, "autoScale"));
      var autoScale :- DecodeEach(rules, ParseAutoScale);
      Some(MicroserviceRecord(name, sizing.0, sizing.1, sizing.2, sizing.3, sizing.4, sizing.5,
                              ratios.0, ratios.1, ratios.2, ratios.3, ratios.4, ratios.5,
                              autoScale))
  }

  function ParseJob(j: Json): Option<Job>
  {
    if !j.JObject? || |j.members| != 3 then None
    else
      var ms :- AsInt(At(j.members, 0, "ms"));
      var length :- AsInt(At(j.members, 1, "length"));
      var schedule :- AsInt(At(j.members, 2, "schedule"));
      Some(Job(ms, length, schedule))
  }

  function ParseNetworkService(j: Json): Option<NetworkServiceRecord>
  {
    if !j.JObject? || |j.members| != 3 then None
    else
      var name :- AsString(At(j.members, 0, "name"));
      var flows :- AsInt(At(j.members, 1, "flows"));
      var items :- AsArray(At(j.members, 2, "Job"));
      var jobs :- DecodeEach(items, ParseJob);
      Some(NetworkServiceRecord(name, flows, jobs))
  }

  /** Reads a whole configuration document. */
  function ParseConfig(doc: Json): Option<SimInput>
  {
    if !doc.JObject? || |doc.members| != 4 then None
    else
      var m := doc.members;
      var config :- At(m, 0, "Config");
      var config :- ParseConfigSection(config);
      var hosts :- AsArray(At(m, 1, "Hosts"));
      var hosts :- DecodeEach(hosts, ParseHost);
      var microservices :- AsArray(At(m, 2, "Microservices"));
      var microservices :- DecodeEach(microservices, ParseMicroservice);
      var networkServices :- AsArray(At(m, 3, "NetworkServices"));
      var networkServices :- DecodeEach(networkServices, ParseNetworkService);
      Some(SimInput(config, hosts, microservices, networkServices))
  }

  // ---------------------------------------------------------------- round trips

  lemma HostRoundTrip(h: Host)
    ensures ParseHost(HostEntry(h)) == Some(h)
  {
  }

  lemma SizingRoundTrip(m: MicroserviceRecord)
    ensures ParseSizing(MicroserviceEntry(m).members)
            == Some((m.size, m.cpus, m.ram, m.bw, m.replicas, m.maxReplicas))
  {
  }

  lemma RatiosRoundTrip(m: MicroserviceRecord)
    ensures ParseRatios(MicroserviceEntry(m).members)
            == Some((m.cpuRatio, m.ramRatio, m.bwRatio, m.idleCpu, m.idleRam, m.idleBw))
  {
  }

  lemma MicroserviceRoundTrip(m: MicroserviceRecord)
    ensures ParseMicroservice(MicroserviceEntry(m)) == Some(m)
  {
    SizingRoundTrip(m);
    RatiosRoundTrip(m);
    forall i | 0 <= i < |m.autoScale|
      ensures ParseAutoScale(AutoScaleEntry(m.autoScale[i])) == Some(m.autoScale[i])
    {
    }
    DecodeEachMapSeq(m.autoScale, AutoScaleEntry, ParseAutoScale);
  }

  lemma NetworkServiceRoundTrip(n: NetworkServiceRecord)
    ensures ParseNetworkService(NetworkServiceEntry(n)) == Some(n)
  {
    forall i | 0 <= i < |n.jobs| ensures ParseJob(JobEntry(n.jobs[i])) == Some(n.jobs[i]) {
    }
    DecodeEachMapSeq(n.jobs, JobEntry, ParseJob);
  }

  /** The Hosts section lists every host, in order, and nothing else. */
  lemma HostsRoundTrip(hosts: seq<Host>)
    ensures DecodeEach(MapSeq(hosts, HostEntry), ParseHost) == Some(hosts)
  {
    forall i | 0 <= i < |hosts| ensures ParseHost(HostEntry(hosts[i])) == Some(hosts[i]) {
      HostRoundTrip(hosts[i]);
    }
    DecodeEachMapSeq(hosts, HostEntry, ParseHost);
  }

  /** The Microservices section lists every microservice, in order, and nothing else. */
  lemma MicroservicesRoundTrip(microservices: seq<MicroserviceRecord>)
    ensures DecodeEach(MapSeq(microservices, MicroserviceEntry), ParseMicroservice) == Some(microservices)
  {
    forall i | 0 <= i < |microservices|
      ensures ParseMicroservice(MicroserviceEntry(microservices[i])) == Some(microservices[i])
    {
      MicroserviceRoundTrip(microservices[i]);
    }
    DecodeEachMapSeq(microservices, MicroserviceEntry, ParseMicroservice);
  }

  /** The NetworkServices section lists every network service, in order, and nothing else. */
  lemma NetworkServicesRoundTrip(networkServices: seq<NetworkServiceRecord>)
    ensures DecodeEach(MapSeq(networkServices, NetworkServiceEntry), ParseNetworkService)
            == Some(networkServices)
  {
    forall i | 0 <= i < |networkServices|
      ensures ParseNetworkService(NetworkServiceEntry(networkServices[i])) == Some(networkServices[i])
    {
      NetworkServiceRoundTrip(networkServices[i]);
    }
    DecodeEachMapSeq(networkServices, NetworkServiceEntry, ParseNetworkService);
  }

  /**
   * The document keeps everything it is given: every parameter, and every
   * host, microservice (with its rules) and network service (with its jobs),
   * in the order given.
   */
  lemma GenerateConfigRoundTrip(config: SimConfig, hosts: seq<Host>,
                                microservices: seq<MicroserviceRecord>,
                                networkServices: seq<NetworkServiceRecord>)
    ensures ParseConfig(GenerateConfig(config, hosts, microservices, networkServices))
            == Some(SimInput(config, hosts, microservices, networkServices))
  {
    var m := GenerateConfig(config, hosts, microservices, networkServices).members;
    assert At(m, 0, "Config") == Some(ConfigSection(config));
    assert AsArray(At(m, 1, "Hosts")) == Some(MapSeq(hosts, HostEntry));
    assert AsArray(At(m, 2, "Microservices")) == Some(MapSeq(microservices, MicroserviceEntry));
    assert AsArray(At(m, 3, "NetworkServices")) == Some(MapSeq(networkServices, NetworkServiceEntry));
    assert ParseConfigSection(ConfigSection(config)) == Some(config);
    HostsRoundTrip(hosts);
    MicroservicesRoundTrip(microservices);
    NetworkServicesRoundTrip(networkServices);
  }

  // ---------------------------------------------------------------- running

  /** The engine and how it is started. */
  const EngineLauncher: seq<string> := ["java", "-jar", "backend.jar"]

  /** The configuration file of an experiment: its name with ".json" appended. */
  function ConfigFileName(experimentName: string): (r: string)
    ensures |r| == |experimentName| + 5
    ensures r[..|experimentName|] == experimentName && r[|experimentName|..] == ".json"
  {
    experimentName + ".json"
  }

  /** Where an experiment's engine writes its results. */
  function EngineOutputDir(outputPath: string, experimentName: string): (r: string)
    ensures |r| == |outputPath| + 1 + |experimentName|
    ensures r[..|outputPath|] == outputPath && r[|outputPath|] == '/'
    ensures r[|outputPath| + 1..] == experimentName
  {
    outputPath + "/" + experimentName
  }

  /**
   * Two experiments with different names get different configuration files
   * and, under one output path, different result directories.
   */
  lemma DistinctNamesDistinctPaths(outputPath: string, a: string, b: string)
    requires a != b
    ensures ConfigFileName(a) != ConfigFileName(b)
    ensures EngineOutputDir(outputPath, a) != EngineOutputDir(outputPath, b)
  {
  }

  /** Everything one run would do, short of doing it. */
  datatype RunPlan = RunPlan(
    outputDir: string,    // created when missing
    configPath: string,   // where the document is written
    document: Json,
    command: seq<string>) // the engine process's argument list

  class Backend {
    /** Whether the engine's executable was found when the backend was made. */
    const ready: bool
    const debug: bool

    constructor (enginePresent: bool, debug: bool := false)
      ensures ready == enginePresent && this.debug == debug
    {
      ready := enginePresent;
      this.debug := debug;
    }

    /**
     * Refuses to run when the engine is missing. Otherwise the experiment's
     * document - its parameters, its one host type as a one-element list,
     * its microservices and its network services - goes to
     * "configs/<name>.json", and the engine is started on that file with
     * "<output path>/<name>" as its result directory.
     */
    method RunExperiment(experiment: Experiment, outputPath: string) returns (r: Result<RunPlan>)
      ensures !ready <==> r.Failure?
      ensures !ready ==> r.error == RuntimeError("Simulation backend executable file is missing.")
      ensures r.Success? ==> r.value.outputDir == outputPath
      ensures r.Success? ==> r.value.configPath == "configs/" + experiment.name + ".json"
      ensures r.Success? ==>
                r.value.command == EngineLauncher + ["./configs/" + experiment.name + ".json",
                                                     outputPath + "/" + experiment.name]
      ensures r.Success? ==>
                r.value.document == GenerateConfig(experiment.config, [experiment.host],
                                                   experiment.microservices, experiment.networkServices)
      ensures r.Success? ==>
                ParseConfig(r.value.document) == Some(SimInput(experiment.config, [experiment.host],
                                                               experiment.microservices,
                                                               experiment.networkServices))
    {
      if ready {
        var configFile := ConfigFileName(experiment.name);
        var document := GenerateConfig(experiment.config, [experiment.host],
                                       experiment.microservices, experiment.networkServices);
        GenerateConfigRoundTrip(experiment.config, [experiment.host],
                                experiment.microservices, experiment.networkServices);
        var command := EngineLauncher + ["./configs/" + configFile,
                                         EngineOutputDir(outputPath, experiment.name)];
        assert "./configs/" + configFile == "./configs/" + experiment.name + ".json";
        assert "configs/" + configFile == "configs/" + experiment.name + ".json";
        r := Success(RunPlan(outputPath, "configs/" + configFile, document, command));
      } else {
        r := Failure(RuntimeError("Simulation backend executable file is missing."));
      }
    }
  }
}
