/**
 * The plain constructor-plus-getter records of the simulator: simulation
 * parameters (Config.py), a host type (Host.py), one job of a network
 * service (Job.py) and one auto-scale rule of a microservice (AutoScale.py).
 * Each getter of the source is the field of the same name.
 */
module Records {
  import opened Common

  /**
   * Simulation parameters. The source leaves the seed's type open; the model
   * takes an integer. Defaults as in Config.__init__.
   */
  datatype SimConfig = SimConfig(
    seed: int,
    interval: Float := One,
    sampleInterval: Float := One,
    stepSize: Float := OneThousandth)

  /** A host type and how many replicas of it the data centre has. */
  datatype Host = Host(
    cpus: int,
    ram: int,
    bw: int,
    storage: int,
    staticPower: Float,
    maxPower: Float,
    replicas: int,
    vmScheduler: string := "SpaceShared")

  /**
   * One job of a network service: the index of the microservice that runs
   * it, its length in MI and the time slot it is scheduled in.
   */
  datatype Job = Job(ms: int, length: int, schedule: int)

  /** An auto-scaling rule: scale when `telemetry` crosses `threshold`. */
  datatype AutoScale = AutoScale(telemetry: string, threshold: Float)
}
