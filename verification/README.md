# PySDNSim experiment descriptions, modelled in Dafny

PySDNSim describes simulation experiments for an external SDN/microservice
simulation engine. An experiment has four parts:

- simulation parameters;
- a host type;
- a list of microservices, each with resource demands and auto-scaling rules;
- a list of network services, each a chain of jobs scheduled on those microservices.

The backend serialises an experiment into the engine's JSON configuration
document and starts the engine on it.

This project models that layer:

- `Records` (`records.dfy`): the plain records `Config`, `Host`, `Job` and
  `AutoScale`. A getter of the source is the field of the same name. Floats
  are only ever copied, so they are kept as opaque bit patterns (`Common.Float`).
- `Microservices` (`microservices.dfy`): the `Microservice` class, with its
  constructor and `add_auto_scale`.
- `NetworkServices` (`network_services.dfy`): the `NetworkService` class. It
  has its constructor, the `flows` setter, `add_job` and `offset_schedule`
  (a loop that rewrites each job's schedule slot). The module also has
  `create_network_service`, which checks three parallel lists and appends
  one job per index.
- `Experiments` (`experiments.dfy`): the `Experiment` class. It has its
  constructor, `scale_all`, `scale` and `set_num_flows`. An experiment takes
  deep copies of its lists. The model keeps those copies as sequences of
  values (`MicroserviceRecord`, `NetworkServiceRecord`), and the methods
  update them one element at a time, as the source's loops do. Each method
  is proved against a specification function: `ScaleEvery`, `ScaleNamed` or
  `WithFlows`. Lemmas state the properties of those functions.
- `Documents` and `SimBackend` (`documents.dfy`, `sim_backend.dfy`):
  `generate_config` becomes a function from the records to a JSON-like
  document. Its inverse is a parser that checks every key at its position.
  Round-trip lemmas show that the document keeps every input, in order.
  `run_experiment` becomes a method. It either raises when the engine is
  missing, or returns the run it would perform: the output directory, the
  configuration path, the document and the engine's argument list.

Two mismatches in the source are resolved as follows:

- `generate_config` reads `job.ms_id` (PySDNSim/Backend.py:100), but a job
  only has `ms`. The model writes `ms`.
- `generate_config` also reads `idle_cpu`, `idle_ram` and `idle_bw`
  (PySDNSim/Backend.py:85-87), which `Microservice` never sets. The model
  gives the microservice three more opaque fields, passed to its constructor.

The example driver (example/chirpstack.py:151-210) calls
`Backend(max_num_threads=2)`, `start()`, `add_experiment()` and `stop()`.
PySDNSim/Backend.py defines none of them, and the `Thread` it imports
(PySDNSim/Backend.py:4) is never used, so no run queue or thread pool is
modelled: a backend runs one experiment per `run_experiment` call.

Because of the two mismatches above, `generate_config` as written raises
`AttributeError` for any experiment with a microservice (at `ms.idle_cpu`,
PySDNSim/Backend.py:85) and, for one with no microservice, for any job (at
`job.ms_id`, PySDNSim/Backend.py:100). A ready backend's `run_experiment` on
such an experiment creates the output directory (PySDNSim/Backend.py:118-119)
and then raises, without writing the configuration file or starting the
engine. The model writes the intended fields instead; see "## Left out".

## Model

| member | source | states |
|---|---|---|
| `Microservices.Microservice.constructor` | PySDNSim/Microservice.py:20-46 | every argument is stored in the field its getter returns; the auto-scale list starts empty |
| `Microservices.Microservice.AddAutoScale` | PySDNSim/Microservice.py:48-50 | the rule list grows by exactly one; the new last rule has the given telemetry and threshold; earlier rules and every other field are unchanged |
| `NetworkServices.NetworkService.constructor` | PySDNSim/NetworkService.py:16-25 | a new service has the given name and flow count and no jobs |
| `NetworkServices.NetworkService.SetFlows` | PySDNSim/NetworkService.py:35-37 | the flow count becomes the given value; the jobs are unchanged |
| `NetworkServices.NetworkService.AddJob` | PySDNSim/NetworkService.py:43-49 | the job is appended at the end; earlier jobs keep their order; flows unchanged |
| `NetworkServices.Offset` | PySDNSim/NetworkService.py:57-58 | one job per input job, in order; each keeps its microservice and length, and its schedule moves by the offset |
| `NetworkServices.NetworkService.OffsetSchedule` | PySDNSim/NetworkService.py:51-58 | the loop leaves exactly `Offset(old jobs, offset)`; name and flows unchanged |
| `NetworkServices.OffsetCompose` | PySDNSim/NetworkService.py:51-58 | offsetting by `a` then by `b` equals offsetting by `a + b` |
| `NetworkServices.OffsetZero` | PySDNSim/NetworkService.py:51-58 | offsetting by 0 changes nothing |
| `NetworkServices.CreateNetworkService` | PySDNSim/NetworkService.py:60-84 | raises the mismatch error exactly when the three list lengths are not all equal; otherwise returns a new service with the given name and flows (default 1), with one job per index, job i being (`microservices[i]`, `schedule_length[i]`, `schdeule[i]`) |
| `Experiments.Experiment.constructor` | PySDNSim/Experiment.py:16-28 | stores name, parameters and host, and keeps independent copies of every microservice and network service, in order |
| `Experiments.ParseResource` | PySDNSim/Experiment.py:60-70 | only "cpu", "ram" and "bw" name a resource, each a different one |
| `Experiments.Bump` | PySDNSim/Experiment.py:60-68 | the chosen resource grows by the delta; the other two resources and all other fields are unchanged |
| `Experiments.ScaleEvery` | PySDNSim/Experiment.py:60-68 | one result per microservice, in order, each with the delta added to the chosen resource |
| `Experiments.ScaleEveryCompose` | PySDNSim/Experiment.py:60-68 | scaling everything by `a` and then by `b` equals scaling by `a + b` |
| `Experiments.Experiment.ScaleAll` | PySDNSim/Experiment.py:50-70 | a valid resource name gives `ScaleEvery` of the old microservices; any other name raises "Resource … does not exist." and changes nothing; network services are unchanged |
| `Experiments.ScaleNamed` | PySDNSim/Experiment.py:83-101 | same length; the first microservice with the name gets the delta on the chosen resource; every other microservice is unchanged |
| `Experiments.ScaleNamedWithoutMatch` | PySDNSim/Experiment.py:83-101 | with no microservice of that name nothing changes |
| `Experiments.ScaleNamedChangesAtMostOne` | PySDNSim/Experiment.py:84-101 | two positions that both changed are the same position |
| `Experiments.ScaleNamedHitsFirstMatch` | PySDNSim/Experiment.py:85-89 | if some microservice has the name, then the first such one, at or before it, is the one scaled |
| `Experiments.ScalingKeepsNames` | PySDNSim/Experiment.py:60-101 | neither kind of scaling changes the number, order or names of the microservices |
| `Experiments.Experiment.Scale` | PySDNSim/Experiment.py:72-106 | a valid resource name gives `ScaleNamed` of the old microservices and raises nothing, even when no name matches; an invalid name always raises "Microservice … not found." (the "Resource … does not exist." branch is unreachable) and changes nothing |
| `Experiments.WithFlows` | PySDNSim/Experiment.py:108-110 | every service gets the given flow count, with its name and jobs unchanged |
| `Experiments.WithFlowsLastWins` | PySDNSim/Experiment.py:108-110 | setting the flow count twice leaves only the second value |
| `Experiments.Experiment.SetNumFlows` | PySDNSim/Experiment.py:108-110 | the loop leaves `WithFlows(old services, n)`; microservices unchanged |
| `Documents.MapSeq` | PySDNSim/Backend.py:57-105 | each loop-and-append yields one entry per input, in input order |
| `SimBackend.GenerateConfig` | PySDNSim/Backend.py:49-105 | the document is an object with exactly the sections Config, Hosts, Microservices, NetworkServices, in that order |
| `SimBackend.HostRoundTrip` | PySDNSim/Backend.py:57-70 | a host entry holds replica, ram, bw, storage, pes (the CPU count), maxPower, staticPower and vmScheduler, and reads back as the host |
| `SimBackend.HostsRoundTrip` | PySDNSim/Backend.py:57-70 | the Hosts section reads back as the host list, in order |
| `SimBackend.SizingRoundTrip` | PySDNSim/Backend.py:74-81 | a microservice entry holds size, cpu, ram, bw, replicas and maxReplicas at their positions |
| `SimBackend.RatiosRoundTrip` | PySDNSim/Backend.py:82-87 | a microservice entry holds cpuRatio, ramRatio, bwRatio, idleCPU, idleRAM and idleBW at their positions |
| `SimBackend.MicroserviceRoundTrip` | PySDNSim/Backend.py:73-93 | a microservice entry, including its autoScale list of {telemetry, threshold} entries in rule order, reads back as the microservice |
| `SimBackend.MicroservicesRoundTrip` | PySDNSim/Backend.py:72-93 | the Microservices section reads back as the microservice list, in order |
| `SimBackend.NetworkServiceRoundTrip` | PySDNSim/Backend.py:96-105 | a network-service entry, with name, flows and its Job list of {ms, length, schedule} entries in job order, reads back as the service |
| `SimBackend.NetworkServicesRoundTrip` | PySDNSim/Backend.py:95-105 | the NetworkServices section reads back as the service list, in order |
| `SimBackend.GenerateConfigRoundTrip` | PySDNSim/Backend.py:49-105 | the whole document reads back as exactly the parameters (interval, sampleInterval, stepSize, seed) and the three lists it was made from |
| `SimBackend.ConfigFileName` | PySDNSim/Backend.py:116 | the configuration file name is the experiment name followed by ".json" |
| `SimBackend.EngineOutputDir` | PySDNSim/Backend.py:136 | the engine's result directory is the output path, a "/", then the experiment name |
| `SimBackend.DistinctNamesDistinctPaths` | PySDNSim/Backend.py:116-136 | experiments with different names get different configuration files and result directories |
| `SimBackend.Backend.constructor` | PySDNSim/Backend.py:19-28 | `ready` records whether the engine executable was found |
| `SimBackend.Backend.RunExperiment` | PySDNSim/Backend.py:114-143 | raises "Simulation backend executable file is missing." exactly when not ready. Otherwise it serialises `[experiment.host]` with the experiment's own parameters and lists. The document goes to "configs/<name>.json", and the run starts `java -jar backend.jar` with "./configs/<name>.json" and "<output path>/<name>" as its last two arguments |

## Left out

- `Backend(max_num_threads=...)`, `start()`, `add_experiment()` and `stop()`, which example/chirpstack.py:151-210 calls: PySDNSim/Backend.py defines none of them and never uses the `Thread` it imports, so there is nothing to model.
- Effects of `run_experiment` and `generate_config`:
  - The `subprocess.call` of the engine, `os.makedirs` of the output and `configs` directories, and the JSON file write are not performed.
  - `RunExperiment` returns them as a `RunPlan` instead. The engine's exit status is not observed, as in the source.
- SimBackend.GenerateConfig: does not model the `AttributeError` the source raises as written. It reads `ms.idle_cpu` (PySDNSim/Backend.py:85), which no microservice has, and `job.ms_id` (PySDNSim/Backend.py:100), which no job has. So every call with a microservice, or with a job, raises. The model writes the idle demands passed to the microservice's constructor and the job's `ms` instead.
- SimBackend.Backend.RunExperiment: does not model that, as written, a ready backend raises `AttributeError` from `generate_config` for any experiment with a microservice or a job, after creating the output directory and before writing the configuration file or starting the engine. The model fails only when the engine is missing, and otherwise returns the run with the intended document.
- SimBackend.GenerateConfig: takes no file name and no `debug` flag, because it stops before the file write; `RunExperiment` records the path the document goes to.
- The `backend.jar` lookup in `Backend.__init__`: the constructor takes its result as the parameter `enginePresent`.
- Logging: `Log.py`, the `debug` flag's log messages and the logger calls in `Backend.py`. The `debug` flag is stored and not used.
- Floating point: intervals, power values, thresholds and idle demands are opaque bit patterns that are only copied. The float defaults of `Config` (1.0, 1.0, 0.001) are their IEEE-754 patterns.
- Experiments.Experiment.ScaleAll: the delta is an integer; the source also accepts a float.
- Experiments.Experiment.Scale: the delta is an integer; the source also accepts a float.
- Records.SimConfig: the seed is an integer; the source accepts any value the JSON writer can serialise.
- Object identity:
  - The source mutates shared `Job` and `Microservice` objects in place. The model uses values instead.
  - So the model does not capture a job object shared by two network services, whose schedule `offset_schedule` would move in both.
  - It does not capture a microservice listed twice in an experiment (a deep copy keeps the two entries as one object, so `scale_all` would add the delta twice).
  - It does not capture edits made through the lists the getters return.
- Getters: the fields of the Dafny classes and records are public and stand for the source's getters, so they have no members of their own.
- Microservices.Microservice.constructor: takes the three idle demands as extra parameters, because the serialiser reads them and the source never sets them.
- `example/chirpstack.py`: a driver script that reads CSV files and plots results. It calls backend methods and keyword arguments that the code does not define.
