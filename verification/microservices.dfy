/**
 * A microservice (Microservice.py): its image size, resource demands,
 * replica bounds, per-flow resource ratios and the auto-scaling rules
 * added to it one by one.
 */
module Microservices {
  import opened Common
  import opened Records

  /**
   * The value of a microservice at one moment: what an experiment keeps
   * when it takes its own deep copy, and what the serialiser reads.
   *
   * The serialiser also reads `idle_cpu`, `idle_ram` and `idle_bw`, which the
   * source's class never defines; the model carries them as three more
   * opaque fields, set when the microservice is constructed.
   */
  datatype MicroserviceRecord = MicroserviceRecord(
    name: string,
    size: int,
    cpus: int,
    ram: int,
    bw: int,
    replicas: int,
    maxReplicas: int,
    cpuRatio: int,
    ramRatio: int,
    bwRatio: int,
    idleCpu: Float,
    idleRam: Float,
    idleBw: Float,
    autoScale: seq<AutoScale>)

  class Microservice {
    const name: string
    const size: int
    const cpus: int
    const ram: int
    const bw: int
    const replicas: int
    const maxReplicas: int
    const cpuRatio: int
    const ramRatio: int
    const bwRatio: int
    const idleCpu: Float
    const idleRam: Float
    const idleBw: Float
    var autoScale: seq<AutoScale>

    /** The microservice's current value; reading it is a deep copy. */
    function Snapshot(): MicroserviceRecord
      reads this
    {
      MicroserviceRecord(name, size, cpus, ram, bw, replicas, maxReplicas,
                         cpuRatio, ramRatio, bwRatio, idleCpu, idleRam, idleBw,
                         autoScale)
    }

    constructor (name: string, size: int, cpus: int, ram: int, bw: int,
                 replicas: int, maxReplicas: int,
                 cpuRatio: int, ramRatio: int, bwRatio: int,
                 idleCpu: Float, idleRam: Float, idleBw: Float)
      ensures this.name == name && this.size == size
      ensures this.cpus == cpus && this.ram == ram && this.bw == bw
      ensures this.replicas == replicas && this.maxReplicas == maxReplicas
      ensures this.cpuRatio == cpuRatio && this.ramRatio == ramRatio && this.bwRatio == bwRatio
      ensures this.idleCpu == idleCpu && this.idleRam == idleRam && this.idleBw == idleBw
      ensures autoScale == []
    {
      this.name := name;
      this.size := size;
      this.cpus := cpus;
      this.ram := ram;
      this.bw := bw;
      this.replicas := replicas;
      this.maxReplicas := maxReplicas;
      this.cpuRatio := cpuRatio;
      this.ramRatio := ramRatio;
      this.bwRatio := bwRatio;
      this.idleCpu := idleCpu;
      this.idleRam := idleRam;
      this.idleBw := idleBw;
      this.autoScale := [];
    }

    /** Appends one rule; earlier rules and every other field stay as they were. */
    method AddAutoScale(telemetry: string, threshold: Float)
      modifies this
      ensures |autoScale| == |old(autoScale)| + 1
      ensures autoScale[..|old(autoScale)|] == old(autoScale)
      ensures autoScale[|autoScale| - 1] == AutoScale(telemetry, threshold)
      ensures Snapshot() == old(Snapshot()).(autoScale := autoScale)
    {
      var rule := AutoScale(telemetry, threshold);
      autoScale := autoScale + [rule];
    }
  }
}
