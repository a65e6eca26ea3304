/** The simulation driver: one tick runs the four steps in order and
    advances the clock; the run loads the workload, ticks while any process
    is still waiting, ready or blocked, and shuts down by logging the null
    process's idle time. */
module Simulation {
  import opened Records
  import opened PrioQueue
  import opened Scheduler
  import opened Invariants
  import opened Loader

  /** `scheduler_is_active`: some process has not yet terminated. The
      scheduler is idle exactly when every process it holds is logged. */
  function IsActive(s: State): (b: bool)
    ensures !b <==> Bag(s) == multiset(Pids(s.logs))
  {
    s.ready != [] || s.io != [] || s.arrival != []
  }

  /** One iteration of the main loop: the quantum check, queueing of new and
      returning processes, scheduling, one tick of CPU, then the clock. */
  function Tick(s: State): (r: State)
    requires Schedulable(s)
    ensures Schedulable(r)
    ensures r.clock == s.clock + 1
  {
    CheckQuantaSchedulable(s);
    var s1 := CheckTopProcessQuanta(s);
    QueueNewShape(s1);
    var s2 := QueueNewProcesses(s1);
    var s3 := ScheduleProcesses(s2);
    RunSchedulable(s3);
    var s4 := RunTopProcess(s3);
    s4.(clock := s4.clock + 1)
  }

  /** A tick is the composition of its four steps. */
  lemma TickSteps(s: State)
    requires Schedulable(s)
    ensures var s2 := QueueNewProcesses(CheckTopProcessQuanta(s));
      && Leveled(s2.ready) && Live(s2.ready)
      && var s4 := RunTopProcess(ScheduleProcesses(s2));
      Tick(s) == s4.(clock := s4.clock + 1)
  {
    CheckQuantaSchedulable(s);
    QueueNewShape(CheckTopProcessQuanta(s));
  }

  /** The clock takes no part in the invariant, the pids or the CPU total. */
  lemma ClockFree(s: State, clock: nat)
    requires Invariant(s)
    ensures Invariant(s.(clock := clock)) && Keeps(s, s.(clock := clock))
  {
  }

  /** The first half of a tick: the quantum check, then queueing. */
  lemma TickQueues(s: State)
    requires Invariant(s)
    ensures var s2 := QueueNewProcesses(CheckTopProcessQuanta(s));
      Invariant(s2) && Keeps(s, s2)
  {
    CheckQuantaPreserves(s);
    QueueNewProcessesPreserves(CheckTopProcessQuanta(s));
  }

  /** The second half of a tick: scheduling, then one tick of CPU. */
  lemma TickRuns(s2: State)
    requires Invariant(s2)
    ensures var s4 := RunTopProcess(ScheduleProcesses(s2));
      Invariant(s4) && Bag(s4) == Bag(s2) && CpuSum(s4) == CpuSum(s2) + 1
  {
    SchedulePreserves(s2);
    RunPreserves(ScheduleProcesses(s2));
  }

  /** A tick keeps the invariant, keeps every process, and charges exactly
      one tick of CPU to a process or to the null process. */
  lemma TickPreserves(s: State)
    requires Invariant(s)
    ensures Invariant(Tick(s)) && Bag(Tick(s)) == Bag(s) && CpuSum(Tick(s)) == CpuSum(s) + 1
  {
    var s2 := QueueNewProcesses(CheckTopProcessQuanta(s));
    TickQueues(s);
    TickRuns(s2);
    var s4 := RunTopProcess(ScheduleProcesses(s2));
    ClockFree(s4, s4.clock + 1);
    TickSteps(s);
  }

  /** Every tick is accounted for: the CPU time charged so far equals the
      time elapsed. */
  lemma TickConserves(s: State)
    requires Invariant(s) && Conserved(s)
    ensures Conserved(Tick(s))
  {
    TickPreserves(s);
  }

  /** After a tick no process whose arrival time has come is still waiting
      to arrive. */
  lemma TickAdmits(s: State)
    requires Schedulable(s)
    ensures Tick(s).arrival == [] || s.clock < Tick(s).arrival[0].key
  {
    var s1 := CheckTopProcessQuanta(s);
    assert Tick(s).arrival == QueueNewProcesses(s1).arrival;
  }

  // ---------------------------------------------------------------------
  // The log of terminated processes
  // ---------------------------------------------------------------------

  /** Every logged process is keyed by its lifetime CPU usage. */
  predicate LogsKeyed(q: Queue) {
    forall e | e in q :: e.key == e.proc.totalCpuUsage
  }

  lemma TerminateLogsKeyed(s: State)
    requires s.ready != [] && LogsKeyed(s.logs)
    ensures LogsKeyed(TerminateProcess(s).logs)
  {
    var p := s.ready[0].proc;
    assert TerminateProcess(s).logs == Insert(s.logs, p.(behaviours := []), p.totalCpuUsage);
  }

  /** Scheduling logs every terminated process under its CPU usage. */
  lemma {:induction false} ScheduleLogsKeyed(s: State)
    requires Leveled(s.ready) && Live(s.ready) && LogsKeyed(s.logs)
    ensures LogsKeyed(ScheduleProcesses(s).logs)
    decreases |s.ready|, if s.ready == [] then 0 else |s.ready[0].proc.behaviours|
  {
    if s.ready != [] {
      var p := s.ready[0].proc;
      PopFrontMembers(s.ready);
      match Decide(p)
      case Terminate =>
        assert ScheduleProcesses(s) == ScheduleProcesses(TerminateProcess(s));
        TerminateLogsKeyed(s);
        ScheduleLogsKeyed(TerminateProcess(s));
      case NextBehaviour =>
        var next := s.(ready := UpdateFront(s.ready, AdvanceBehaviour(p)));
        assert ScheduleProcesses(s) == ScheduleProcesses(next);
        UpdateFrontFacts(s.ready, AdvanceBehaviour(p));
        ScheduleLogsKeyed(next);
      case BlockIo =>
        assert ScheduleProcesses(s) == ScheduleProcesses(SendProcessToIo(s));
        ScheduleLogsKeyed(SendProcessToIo(s));
      case Dispatch =>
        assert ScheduleProcesses(s) == s;
    }
  }

  /** A tick keeps the log keyed by CPU usage. */
  lemma TickLogsKeyed(s: State)
    requires Schedulable(s) && LogsKeyed(s.logs)
    ensures LogsKeyed(Tick(s).logs)
  {
    CheckQuantaSchedulable(s);
    var s1 := CheckTopProcessQuanta(s);
    QueueNewShape(s1);
    var s2 := QueueNewProcesses(s1);
    ScheduleLogsKeyed(s2);
  }

  // ---------------------------------------------------------------------
  // Shutdown and report
  // ---------------------------------------------------------------------

  /** `shutdown_scheduler`: the null process joins the log, keyed by its idle
      ticks, only if it was ever charged one. The result is the log that
      `print_report` walks front to back. */
  function ShutdownScheduler(s: State): (report: Queue)
    ensures s.nullUsage == 0 ==> report == s.logs
    ensures s.nullUsage > 0 && 0 !in Pids(s.logs) ==>
      Entry(NullProcess(s.nullUsage), s.nullUsage) in report && |report| == |s.logs| + 1
    ensures forall e | e in report :: e in s.logs || e == Entry(NullProcess(s.nullUsage), s.nullUsage)
  {
    if s.nullUsage > 0 then Insert(s.logs, NullProcess(s.nullUsage), s.nullUsage) else s.logs
  }

  /** At shutdown the report holds the processes of the log, plus the null
      process when it ran. */
  lemma ShutdownBag(s: State)
    requires 0 !in Pids(s.logs)
    ensures multiset(Pids(ShutdownScheduler(s))) == multiset(Pids(s.logs)) + (if s.nullUsage > 0 then multiset{0} else multiset{})
    ensures TotalCpu(ShutdownScheduler(s)) == TotalCpu(s.logs) + s.nullUsage
  {
    if s.nullUsage > 0 {
      InsertFresh(s.logs, NullProcess(s.nullUsage), s.nullUsage);
    }
  }

  /** The report lists processes in ascending order of CPU usage. */
  lemma ShutdownOrder(s: State)
    requires Sorted(s.logs) && LogsKeyed(s.logs)
    ensures var report := ShutdownScheduler(s);
      forall i, j :: 0 <= i < j < |report| ==> report[i].proc.totalCpuUsage <= report[j].proc.totalCpuUsage
  {
    var report := ShutdownScheduler(s);
    if s.nullUsage > 0 {
      InsertKeepsSorted(s.logs, NullProcess(s.nullUsage), s.nullUsage);
    }
    assert LogsKeyed(report);
    forall i, j | 0 <= i < j < |report| ensures report[i].proc.totalCpuUsage <= report[j].proc.totalCpuUsage {
      assert report[i] in report && report[j] in report;
    }
  }

  /** The report of a finished run lists every process once, the null
      process included when it ran, in ascending order of CPU usage, and the
      usages add up to the ticks elapsed. */
  lemma ShutdownAccounts(s: State)
    requires Invariant(s) && Conserved(s) && LogsKeyed(s.logs) && !IsActive(s)
    ensures var report := ShutdownScheduler(s);
      && multiset(Pids(report)) == Bag(s) + (if s.nullUsage > 0 then multiset{0} else multiset{})
      && TotalCpu(report) == s.clock
      && forall i, j :: 0 <= i < j < |report| ==> report[i].proc.totalCpuUsage <= report[j].proc.totalCpuUsage
  {
    assert Bag(s) == multiset(Pids(s.logs));
    ShutdownBag(s);
    ShutdownOrder(s);
  }

  /** The shutdown time mlqfs.c prints: the clock is decremented
      once after the loop, as an unsigned 32-bit counter. */
  function ShutdownTime(clock: nat): (t: nat)
    ensures clock > 0 ==> t + 1 == clock
    ensures clock == 0 ==> t == 0xFFFF_FFFF
  {
    if clock == 0 then 0xFFFF_FFFF else clock - 1
  }

  // ---------------------------------------------------------------------
  // A whole run
  // ---------------------------------------------------------------------

  /** No record names the pid of the null process. */
  predicate Named(rs: seq<Record>) {
    forall i :: 0 <= i < |rs| ==> rs[i].pid != 0
  }

  /** The processes the loader files for `rs`. */
  function Loaded(rs: seq<Record>): Queue {
    InsertAll([], Group(rs))
  }

  /** A queue of processes that have not run has no CPU time. */
  lemma {:induction false} TotalCpuUnused(q: Queue)
    requires forall e | e in q :: e.proc.totalCpuUsage == 0
    ensures TotalCpu(q) == 0
    decreases |q|
  {
    if q != [] {
      PopFrontMembers(q);
      TotalCpuUnused(q[1..]);
    }
  }

  /** The state the main loop starts from. */
  function Initial(rs: seq<Record>): State {
    State(Loaded(rs), [], [], [], 0, 0)
  }

  /** The initial state can be scheduled and, when no record uses pid 0,
      satisfies the invariant, charges no time and has an empty log. */
  lemma InitialFacts(rs: seq<Record>)
    requires rs != []
    ensures Schedulable(Initial(rs)) && Initial(rs).arrival != []
    ensures Named(rs) ==> Invariant(Initial(rs)) && Conserved(Initial(rs)) && LogsKeyed(Initial(rs).logs)
  {
    var s := Initial(rs);
    var q := Loaded(rs);
    LoadedQueue(rs);
    TotalCpuUnused(q);
    assert Bag(s) == multiset(Pids(q));
    var ps := Group(rs);
    var init := InsertAll([], ps[..|ps| - 1]);
    assert q == Insert(init, ps[|ps| - 1], ps[|ps| - 1].arrivalTime);
    if Named(rs) {
      forall k | 0 <= k < |q| ensures Pids(q)[k] != 0 {
        assert q[k] in q;
      }
    }
  }

  /** What the main loop keeps when no record uses pid 0: the invariant,
      time conservation, a log keyed by usage, and the loaded processes. */
  ghost predicate Healthy(s: State, bag: multiset<int>) {
    Invariant(s) && Conserved(s) && LogsKeyed(s.logs) && Bag(s) == bag
  }

  lemma TickHealthy(s: State, bag: multiset<int>)
    requires Healthy(s, bag)
    ensures Healthy(Tick(s), bag)
  {
    TickPreserves(s);
    TickLogsKeyed(s);
  }

  /** The report of a finished run, in terms of the processes loaded. */
  lemma Finish(s: State, bag: multiset<int>)
    requires Healthy(s, bag) && !IsActive(s)
    ensures var report := ShutdownScheduler(s);
      && (forall x :: x != 0 ==> multiset(Pids(report))[x] == bag[x])
      && multiset(Pids(report))[0] <= 1
      && TotalCpu(report) == s.clock
      && forall i, j :: 0 <= i < j < |report| ==> report[i].proc.totalCpuUsage <= report[j].proc.totalCpuUsage
  {
    ShutdownAccounts(s);
    assert 0 !in bag;
  }

  /** The run: load, tick while active (at most `fuel` ticks), shut down.
      `finished` tells whether the scheduler fell idle within the fuel;
      `report` is the log `print_report` walks and `shutdown` the printed
      shutdown time. When no record uses pid 0, a finished run reports every
      loaded process exactly once, plus the null process at most once, in
      ascending order of CPU usage, with usages adding up to every tick up
      to and including the shutdown time. */
  method Simulate(rs: seq<Record>, fuel: nat) returns (report: Queue, shutdown: nat, finished: bool)
    requires rs != []
    ensures finished && Named(rs) ==>
      && (forall x :: x != 0 ==> multiset(Pids(report))[x] == multiset(Pids(Loaded(rs)))[x])
      && multiset(Pids(report))[0] <= 1
      && TotalCpu(report) == shutdown + 1
      && forall i, j :: 0 <= i < j < |report| ==> report[i].proc.totalCpuUsage <= report[j].proc.totalCpuUsage
  {
    var arrival := LoadProcessDescriptions(rs);
    var s := State(arrival, [], [], [], 0, 0);
    InitialFacts(rs);
    ghost var bag := multiset(Pids(Loaded(rs)));
    var ticks := 0;
    while IsActive(s) && ticks < fuel
      invariant Schedulable(s)
      invariant s.clock == ticks
      invariant ticks == 0 ==> IsActive(s)
      invariant Named(rs) ==> Healthy(s, bag)
      decreases fuel - ticks
    {
      if Named(rs) {
        TickHealthy(s, bag);
      }
      s := Tick(s);
      ticks := ticks + 1;
    }
    finished := !IsActive(s);
    report := ShutdownScheduler(s);
    shutdown := ShutdownTime(s.clock);
    if finished && Named(rs) {
      Finish(s, bag);
    }
  }
}
