/** The three-level feedback scheduler: its state, the steps one tick runs,
    and the invariants those steps keep. Level 0 is the highest priority;
    the level of a ready process is the key of its ready-queue entry. */
module Scheduler {
  import opened Records
  import opened PrioQueue

  const MaxPriority: nat := 0
  const MinPriority: nat := 2

  /** Per-level ceilings, indexed by level. 88 is the character 'X' of
      mlqfs.c: a ceiling that takes 88 consecutive events to reach, and
      reaching it at the end level only resets the counter. */
  const QuantumThreshold: seq<nat> := [10, 30, 100]
  const DemotionThreshold: seq<nat> := [1, 2, 88]
  const PromotionThreshold: seq<nat> := [88, 2, 1]

  datatype State = State(
    arrival: Queue,   // not yet arrived, keyed by arrival time
    ready: Queue,     // waiting for the CPU, keyed by level
    io: Queue,        // blocked, keyed by the tick the wait ends
    logs: Queue,      // terminated, keyed by lifetime CPU usage
    nullUsage: nat,   // idle ticks charged to the null process
    clock: nat)

  // ---------------------------------------------------------------------
  // State predicates
  // ---------------------------------------------------------------------

  /** Every ready entry sits at one of the three levels. */
  predicate Leveled(q: Queue) {
    forall e | e in q :: e.key <= MinPriority
  }

  /** Every cached level is one of the three levels. */
  predicate CachesValid(q: Queue) {
    forall e | e in q :: e.proc.priorityCache <= MinPriority
  }

  /** Every queued process still has a behaviour to work on. */
  predicate Live(q: Queue) {
    forall e | e in q :: |e.proc.behaviours| > 0
  }

  /** What the steps need to look up thresholds and current behaviours. */
  predicate Schedulable(s: State) {
    && Leveled(s.ready) && CachesValid(s.io)
    && Live(s.arrival) && Live(s.ready) && Live(s.io)
  }

  /** Every pid held by the four queues, with multiplicity. */
  function Bag(s: State): multiset<int> {
    multiset(Pids(s.arrival)) + multiset(Pids(s.ready)) + multiset(Pids(s.io)) + multiset(Pids(s.logs))
  }

  predicate SortedQueues(s: State) {
    Sorted(s.arrival) && Sorted(s.ready) && Sorted(s.io) && Sorted(s.logs)
  }

  /** Simulated time accounted for: every process's lifetime usage plus the
      null process's. */
  function CpuSum(s: State): nat {
    TotalCpu(s.arrival) + TotalCpu(s.ready) + TotalCpu(s.io) + TotalCpu(s.logs) + s.nullUsage
  }

  /** Sorted queues, valid levels, and every pid (all non-zero) in exactly
      one place. */
  ghost predicate Invariant(s: State) {
    && Schedulable(s)
    && SortedQueues(s)
    && Distinct(Bag(s))
    && 0 !in Bag(s)
  }

  /** Time conservation: each elapsed tick is charged to exactly one process. */
  predicate Conserved(s: State) {
    CpuSum(s) == s.clock
  }

  /** `r` holds the same processes as `s` and the same CPU time. */
  ghost predicate Keeps(s: State, r: State) {
    Bag(r) == Bag(s) && CpuSum(r) == CpuSum(s)
  }

  // ---------------------------------------------------------------------
  // Level transitions
  // ---------------------------------------------------------------------

  /** The record and level `halt_process` re-queues a process with once its
      quantum has expired. */
  function Demote(e: Entry): (r: Entry)
    requires e.key <= MinPriority
    ensures r.proc.pid == e.proc.pid && r.proc.behaviours == e.proc.behaviours && r.proc.arrivalTime == e.proc.arrivalTime
    ensures r.proc.totalCpuUsage == e.proc.totalCpuUsage && r.proc.priorityCache == e.proc.priorityCache
    ensures r.proc.units == e.proc.units && r.proc.progress == e.proc.progress
    ensures r.proc.quanta == 0 && r.proc.promotion == 0
    ensures e.key <= r.key <= MinPriority && r.key <= e.key + 1
    ensures r.proc.demotion == 0 <==> e.proc.demotion + 1 >= DemotionThreshold[e.key]
    ensures r.proc.demotion != 0 ==> r.proc.demotion == e.proc.demotion + 1
    ensures r.key != e.key <==> r.proc.demotion == 0 && e.key != MinPriority
  {
    var p := e.proc.(quanta := 0, promotion := 0);
    var demotion := e.proc.demotion + 1;
    if demotion >= DemotionThreshold[e.key] then
      Entry(p.(demotion := 0), if e.key != MinPriority then e.key + 1 else e.key)
    else
      Entry(p.(demotion := demotion), e.key)
  }

  /** The record `send_process_to_io` files in the I/O queue: one more
      completed cycle, a fresh burst, and the possibly promoted level kept
      in `priorityCache`. */
  function BlockForIo(e: Entry): (p: Process)
    requires e.key <= MinPriority
    ensures p.pid == e.proc.pid && p.behaviours == e.proc.behaviours && p.arrivalTime == e.proc.arrivalTime
    ensures p.totalCpuUsage == e.proc.totalCpuUsage
    ensures p.progress == e.proc.progress + 1 && p.units == 0 && p.quanta == 0 && p.demotion == 0
    ensures p.priorityCache <= e.key <= p.priorityCache + 1
    ensures p.promotion == 0 <==> e.proc.promotion + 1 >= PromotionThreshold[e.key]
    ensures p.promotion != 0 ==> p.promotion == e.proc.promotion + 1
    ensures p.priorityCache != e.key <==> p.promotion == 0 && e.key != MaxPriority
  {
    var promotion := e.proc.promotion + 1;
    var reached := promotion >= PromotionThreshold[e.key];
    var level := if reached && e.key != MaxPriority then e.key - 1 else e.key;
    e.proc.(promotion := if reached then 0 else promotion, demotion := 0, priorityCache := level,
            progress := e.proc.progress + 1, units := 0, quanta := 0)
  }

  // ---------------------------------------------------------------------
  // Moves between queues
  // ---------------------------------------------------------------------

  /** `halt_process`: the ready front goes back into the ready queue, demoted
      or not; where it lands is stated by `HaltPlacement`. */
  function HaltProcess(s: State): (r: State)
    requires |s.ready| > 0 && s.ready[0].key <= MinPriority
    ensures r.arrival == s.arrival && r.io == s.io && r.logs == s.logs
    ensures r.nullUsage == s.nullUsage && r.clock == s.clock
    ensures s.ready[0].proc.pid !in Pids(s.ready[1..]) ==>
      Demote(s.ready[0]) in r.ready && |r.ready| == |s.ready|
    ensures forall e | e in r.ready :: e in s.ready[1..] || e == Demote(s.ready[0])
  {
    var d := Demote(s.ready[0]);
    s.(ready := Insert(s.ready[1..], d.proc, d.key))
  }

  /** The halted process queues behind every process already at its new
      level and ahead of every lower level, the others keeping their order. */
  lemma HaltPlacement(s: State)
    requires |s.ready| > 0 && s.ready[0].key <= MinPriority
    requires s.ready[0].proc.pid !in Pids(s.ready[1..])
    ensures var d := Demote(s.ready[0]); var rest := s.ready[1..];
      exists i ::
        && 0 <= i <= |rest| && HaltProcess(s).ready == rest[..i] + [d] + rest[i..]
        && (forall j :: 0 <= j < i ==> rest[j].key <= d.key)
        && (forall j :: i <= j < |rest| && Sorted(rest) ==> d.key < rest[j].key)
  {
    var d := Demote(s.ready[0]);
    InsertPlacement(s.ready[1..], d.proc, d.key);
  }

  /** `send_process_to_io`: the ready front leaves for the I/O queue, due
      when its current behaviour's wait has elapsed. */
  function SendProcessToIo(s: State): (r: State)
    requires |s.ready| > 0 && s.ready[0].key <= MinPriority && |s.ready[0].proc.behaviours| > 0
    ensures r.ready == s.ready[1..] && r.arrival == s.arrival && r.logs == s.logs
    ensures r.nullUsage == s.nullUsage && r.clock == s.clock
    ensures var e := s.ready[0];
      e.proc.pid !in Pids(s.io) ==>
        Entry(BlockForIo(e), s.clock + e.proc.behaviours[0].ioTime) in r.io && |r.io| == |s.io| + 1
    ensures forall e | e in r.io :: e in s.io || e == Entry(BlockForIo(s.ready[0]), s.clock + s.ready[0].proc.behaviours[0].ioTime)
    ensures forall e | e in s.io :: e in r.io
  {
    var e := s.ready[0];
    s.(ready := s.ready[1..], io := Insert(s.io, BlockForIo(e), s.clock + e.proc.behaviours[0].ioTime))
  }

  /** `terminate_process`: the ready front is logged under its lifetime CPU
      usage and its behaviours are released. */
  function TerminateProcess(s: State): (r: State)
    requires |s.ready| > 0
    ensures r.ready == s.ready[1..] && r.arrival == s.arrival && r.io == s.io
    ensures r.nullUsage == s.nullUsage && r.clock == s.clock
    ensures var p := s.ready[0].proc;
      p.pid !in Pids(s.logs) ==>
        Entry(p.(behaviours := []), p.totalCpuUsage) in r.logs && |r.logs| == |s.logs| + 1
    ensures s.ready[0].proc.pid in Pids(s.logs) ==> r.logs == s.logs
    ensures forall e | e in r.logs :: e in s.logs || e == Entry(s.ready[0].proc.(behaviours := []), s.ready[0].proc.totalCpuUsage)
    ensures forall e | e in s.logs :: e in r.logs
  {
    var p := s.ready[0].proc;
    s.(ready := s.ready[1..], logs := Insert(s.logs, p.(behaviours := []), p.totalCpuUsage))
  }

  // ---------------------------------------------------------------------
  // The steps of one tick
  // ---------------------------------------------------------------------

  /** `check_top_process_quanta`: the process that ran last tick is charged
      one quantum and halted when that reaches its level's ceiling. */
  function CheckTopProcessQuanta(s: State): (r: State)
    requires s.ready != [] ==> s.ready[0].key <= MinPriority
    ensures s.ready == [] ==> r == s
    ensures s.ready != [] && s.ready[0].proc.quanta + 1 < QuantumThreshold[s.ready[0].key] ==>
      r == s.(ready := UpdateFront(s.ready, s.ready[0].proc.(quanta := s.ready[0].proc.quanta + 1)))
    ensures s.ready != [] && s.ready[0].proc.quanta + 1 >= QuantumThreshold[s.ready[0].key] ==>
      r == HaltProcess(s)
  {
    if s.ready == [] then s
    else
      var e := s.ready[0];
      var p := e.proc.(quanta := e.proc.quanta + 1);
      var s1 := s.(ready := UpdateFront(s.ready, p));
      if p.quanta >= QuantumThreshold[e.key] then
        assert s1.ready[1..] == s.ready[1..] && Demote(s1.ready[0]) == Demote(e);
        HaltProcess(s1)
      else s1
  }

  /** The arrival loop of `queue_new_processes`: while the arrival front is
      due, it moves to the ready queue at the highest level. */
  function AdmitArrivals(s: State): (r: State)
    ensures r.io == s.io && r.logs == s.logs && r.nullUsage == s.nullUsage && r.clock == s.clock
    ensures |r.arrival| <= |s.arrival|
    ensures r.arrival == [] || s.clock < r.arrival[0].key
    decreases |s.arrival|
  {
    if s.arrival != [] && s.arrival[0].key <= s.clock then
      AdmitArrivals(s.(arrival := s.arrival[1..], ready := Insert(s.ready, s.arrival[0].proc, MaxPriority)))
    else s
  }

  /** The admitted processes are exactly the leading run of the arrival queue
      with a key of at most the clock. */
  lemma {:induction false} AdmitArrivalsRest(s: State)
    ensures AdmitArrivals(s).arrival == s.arrival[Slot(s.arrival, s.clock)..]
    decreases |s.arrival|
  {
    if s.arrival != [] && s.arrival[0].key <= s.clock {
      var next := s.(arrival := s.arrival[1..], ready := Insert(s.ready, s.arrival[0].proc, MaxPriority));
      AdmitArrivalsRest(next);
      assert s.arrival[1..][Slot(s.arrival[1..], s.clock)..] == s.arrival[Slot(s.arrival, s.clock)..];
    }
  }

  /** The I/O loop of `queue_new_processes`: while the I/O front's wait has
      ended, it moves to the ready queue at its cached level. */
  function ReturnFromIo(s: State): (r: State)
    ensures r.arrival == s.arrival && r.logs == s.logs && r.nullUsage == s.nullUsage && r.clock == s.clock
    ensures |r.io| <= |s.io|
    ensures r.io == [] || s.clock < r.io[0].key
    decreases |s.io|
  {
    if s.io != [] && s.io[0].key <= s.clock then
      var p := s.io[0].proc;
      ReturnFromIo(s.(io := s.io[1..], ready := Insert(s.ready, p, p.priorityCache)))
    else s
  }

  /** The returned processes are exactly the leading run of the I/O queue
      with a key of at most the clock. */
  lemma {:induction false} ReturnFromIoRest(s: State)
    ensures ReturnFromIo(s).io == s.io[Slot(s.io, s.clock)..]
    decreases |s.io|
  {
    if s.io != [] && s.io[0].key <= s.clock {
      var p := s.io[0].proc;
      var next := s.(io := s.io[1..], ready := Insert(s.ready, p, p.priorityCache));
      ReturnFromIoRest(next);
      assert s.io[1..][Slot(s.io[1..], s.clock)..] == s.io[Slot(s.io, s.clock)..];
    }
  }

  /** Admitting arrivals keeps every ready entry, ready levels valid and
      behaviours present. */
  lemma {:induction false} AdmitArrivalsShape(s: State)
    ensures forall e | e in s.ready :: e in AdmitArrivals(s).ready
    ensures Leveled(s.ready) ==> Leveled(AdmitArrivals(s).ready)
    ensures Live(s.arrival) && Live(s.ready) ==> Live(AdmitArrivals(s).arrival) && Live(AdmitArrivals(s).ready)
    decreases |s.arrival|
  {
    if s.arrival != [] && s.arrival[0].key <= s.clock {
      var next := s.(arrival := s.arrival[1..], ready := Insert(s.ready, s.arrival[0].proc, MaxPriority));
      PopFrontMembers(s.arrival);
      AdmitArrivalsShape(next);
    }
  }

  /** Returning processes from I/O keeps every ready entry, levels valid and
      behaviours present. */
  lemma {:induction false} ReturnFromIoShape(s: State)
    ensures forall e | e in s.ready :: e in ReturnFromIo(s).ready
    ensures CachesValid(s.io) && Leveled(s.ready) ==> CachesValid(ReturnFromIo(s).io) && Leveled(ReturnFromIo(s).ready)
    ensures Live(s.io) && Live(s.ready) ==> Live(ReturnFromIo(s).io) && Live(ReturnFromIo(s).ready)
    decreases |s.io|
  {
    if s.io != [] && s.io[0].key <= s.clock {
      var p := s.io[0].proc;
      var next := s.(io := s.io[1..], ready := Insert(s.ready, p, p.priorityCache));
      PopFrontMembers(s.io);
      ReturnFromIoShape(next);
    }
  }

  /** `queue_new_processes`: arrivals first, then returns from I/O. Nothing
      that is due by the current tick is left behind. */
  function QueueNewProcesses(s: State): (r: State)
    ensures r.logs == s.logs && r.nullUsage == s.nullUsage && r.clock == s.clock
    ensures |r.arrival| <= |s.arrival| && |r.io| <= |s.io|
    ensures r.arrival == [] || s.clock < r.arrival[0].key
    ensures r.io == [] || s.clock < r.io[0].key
  {
    ReturnFromIo(AdmitArrivals(s))
  }

  /** Admission and return keep levels valid and behaviours present. */
  lemma QueueNewShape(s: State)
    requires Schedulable(s)
    ensures Schedulable(QueueNewProcesses(s))
  {
    AdmitArrivalsShape(s);
    ReturnFromIoShape(AdmitArrivals(s));
  }

  /** What `schedule_processes` does with the process at the ready front. */
  datatype Action = Terminate | NextBehaviour | BlockIo | Dispatch

  /** The ready front may run this tick: its burst is unfinished and it is
      not sitting on a completed behaviour that has a successor. */
  predicate Eligible(p: Process) {
    && |p.behaviours| > 0
    && p.units < p.behaviours[0].cpuTime
    && !(|p.behaviours| > 1 && p.progress >= p.behaviours[0].repeats)
  }

  /** The branch `schedule_processes` takes for the ready front. */
  function Decide(p: Process): (a: Action)
    requires |p.behaviours| > 0
    ensures a == Terminate ==>
      |p.behaviours| == 1 && p.progress == p.behaviours[0].repeats && p.units >= p.behaviours[0].cpuTime
    ensures a == NextBehaviour ==> |p.behaviours| > 1 && p.progress >= p.behaviours[0].repeats
    ensures a == BlockIo ==>
      && p.units >= p.behaviours[0].cpuTime
      && !(|p.behaviours| == 1 && p.progress == p.behaviours[0].repeats)
      && !(|p.behaviours| > 1 && p.progress >= p.behaviours[0].repeats)
    ensures a == Dispatch <==> Eligible(p)
  {
    var b := p.behaviours[0];
    if |p.behaviours| == 1 && p.progress == b.repeats && p.units >= b.cpuTime then Terminate
    else if |p.behaviours| > 1 && p.progress >= b.repeats then NextBehaviour
    else if p.units >= b.cpuTime then BlockIo
    else Dispatch
  }

  /** Drop the completed behaviour and start counting cycles of the next;
      the current burst's `units` and every other counter carry over. */
  function AdvanceBehaviour(p: Process): (q: Process)
    requires |p.behaviours| > 1
    ensures |q.behaviours| + 1 == |p.behaviours| && q.behaviours == p.behaviours[1..]
    ensures q.progress == 0
    ensures q.pid == p.pid && q.arrivalTime == p.arrivalTime && q.priorityCache == p.priorityCache
    ensures q.units == p.units && q.quanta == p.quanta && q.totalCpuUsage == p.totalCpuUsage
    ensures q.promotion == p.promotion && q.demotion == p.demotion
  {
    p.(behaviours := p.behaviours[1..], progress := 0)
  }

  /** `schedule_processes`: settle the ready front until it may run or the
      ready queue is empty. Each round removes the front or drops one of its
      behaviours, which is why the loop ends. */
  function ScheduleProcesses(s: State): (r: State)
    requires Leveled(s.ready) && Live(s.ready)
    ensures r.arrival == s.arrival && r.nullUsage == s.nullUsage && r.clock == s.clock
    ensures r.ready == [] || Eligible(r.ready[0].proc)
    ensures |r.ready| <= |s.ready|
    ensures Leveled(r.ready) && Live(r.ready)
    ensures CachesValid(s.io) ==> CachesValid(r.io)
    ensures Live(s.io) ==> Live(r.io)
    ensures forall e | e in s.logs :: e in r.logs
    decreases |s.ready|, if s.ready == [] then 0 else |s.ready[0].proc.behaviours|
  {
    if s.ready == [] then s
    else
      var p := s.ready[0].proc;
      match Decide(p)
      case Terminate => ScheduleProcesses(TerminateProcess(s))
      case NextBehaviour => ScheduleProcesses(s.(ready := UpdateFront(s.ready, AdvanceBehaviour(p))))
      case BlockIo => ScheduleProcesses(SendProcessToIo(s))
      case Dispatch => s
  }

  /** `run_top_process`: one tick of CPU for the ready front, or for the null
      process when nothing is ready. */
  function RunTopProcess(s: State): (r: State)
    ensures r.arrival == s.arrival && r.io == s.io && r.logs == s.logs && r.clock == s.clock
    ensures s.ready == [] ==> r.ready == [] && r.nullUsage == s.nullUsage + 1
    ensures s.ready != [] ==>
      && r.nullUsage == s.nullUsage
      && |r.ready| == |s.ready| && r.ready[1..] == s.ready[1..] && r.ready[0].key == s.ready[0].key
      && r.ready[0].proc == s.ready[0].proc.(units := s.ready[0].proc.units + 1,
                                            totalCpuUsage := s.ready[0].proc.totalCpuUsage + 1)
    ensures CpuSum(r) == CpuSum(s) + 1
  {
    if s.ready == [] then s.(nullUsage := s.nullUsage + 1)
    else
      var p := s.ready[0].proc;
      var p' := p.(units := p.units + 1, totalCpuUsage := p.totalCpuUsage + 1);
      UpdateFrontFacts(s.ready, p');
      s.(ready := UpdateFront(s.ready, p'))
  }
}
