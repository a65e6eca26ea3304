/** The scheduler's data model: the descriptor of one CPU-burst / I/O-wait
    cycle and the per-process record. Every counter of mlqfs.c is an
    unsigned integer, so every counter here is a `nat`. */
module Records {

  /** One cycle of work: `cpuTime` ticks of CPU, then `ioTime` ticks blocked,
      executed `repeats` times before the process moves on to its next
      behaviour. */
  datatype Behaviour = Behaviour(cpuTime: nat, ioTime: nat, repeats: nat)

  /** A scheduling unit. `behaviours` is consumed front to back. The level a
      ready process runs at is the key of its ready-queue entry, not a field
      of the record; `priorityCache` remembers that level while the process
      waits for I/O. */
  datatype Process = Process(
    pid: int,
    priorityCache: nat,
    behaviours: seq<Behaviour>,
    arrivalTime: nat,
    units: nat,          // CPU ticks consumed in the current burst
    quanta: nat,         // ticks held since the process last (re)entered its level
    progress: nat,       // completed cycles of the current behaviour
    promotion: nat,      // consecutive I/O blocks counted toward promotion
    demotion: nat,       // consecutive quantum expiries counted toward demotion
    totalCpuUsage: nat)

  /** The record a fresh process starts from: every field zero, no behaviours. */
  function InitProcess(): (p: Process)
    ensures p.pid == 0 && p.arrivalTime == 0 && p.priorityCache == 0 && p.behaviours == []
    ensures p.units == 0 && p.quanta == 0 && p.progress == 0
    ensures p.promotion == 0 && p.demotion == 0 && p.totalCpuUsage == 0
  {
    Process(0, 0, [], 0, 0, 0, 0, 0, 0, 0)
  }

  /** The sentinel (pid 0) that is charged with every idle tick. */
  function NullProcess(usage: nat): Process {
    InitProcess().(totalCpuUsage := usage)
  }

  /** Identity test of every process queue: 0 for the same pid, 1 otherwise. */
  function ProcessCompare(lhs: Process, rhs: Process): (r: int)
    ensures r == 0 <==> lhs.pid == rhs.pid
    ensures r == 0 || r == 1
  {
    if lhs.pid != rhs.pid then 1 else 0
  }
}
