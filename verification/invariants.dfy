/** The invariants each step of a tick keeps: valid levels, sorted queues,
    every process in exactly one queue, and simulated time neither created
    nor lost except by `RunTopProcess`, which adds exactly one tick.

    Each step is treated in two halves: its shape (levels, behaviours,
    sortedness), which holds whatever the pids are, and its bookkeeping
    (the bag of pids and the CPU total), which relies on the moved process
    not being queued at its destination already. */
module Invariants {
  import opened Records
  import opened PrioQueue
  import opened Scheduler

  // ---------------------------------------------------------------------
  // Unique pids: a queue front is found nowhere else
  // ---------------------------------------------------------------------

  lemma ReadyFrontFresh(s: State)
    requires Distinct(Bag(s)) && s.ready != []
    ensures s.ready[0].proc.pid !in Pids(s.ready[1..])
    ensures s.ready[0].proc.pid !in Pids(s.io)
    ensures s.ready[0].proc.pid !in Pids(s.logs)
  {
    var x := s.ready[0].proc.pid;
    PopFrontBag(s.ready);
    assert Bag(s)[x] <= 1;
  }

  lemma ArrivalFrontFresh(s: State)
    requires Distinct(Bag(s)) && s.arrival != []
    ensures s.arrival[0].proc.pid !in Pids(s.ready)
  {
    var x := s.arrival[0].proc.pid;
    PopFrontBag(s.arrival);
    assert Bag(s)[x] <= 1;
  }

  lemma IoFrontFresh(s: State)
    requires Distinct(Bag(s)) && s.io != []
    ensures s.io[0].proc.pid !in Pids(s.ready)
  {
    var x := s.io[0].proc.pid;
    PopFrontBag(s.io);
    assert Bag(s)[x] <= 1;
  }

  // ---------------------------------------------------------------------
  // Moving a process between two queues keeps the bag and the CPU total
  // ---------------------------------------------------------------------

  /** Multiset union regrouped: the second and third of four parts trade
      elements. */
  lemma PairShift(a: multiset<int>, b: multiset<int>, c: multiset<int>, d: multiset<int>,
                  b2: multiset<int>, c2: multiset<int>)
    requires b2 + c2 == b + c
    ensures a + b2 + c2 + d == a + b + c + d
  {
    forall x ensures (a + b2 + c2 + d)[x] == (a + b + c + d)[x] {
      assert (b2 + c2)[x] == (b + c)[x];
    }
  }

  /** Multiset union regrouped: the second and fourth of four parts trade
      elements. */
  lemma SkipShift(a: multiset<int>, b: multiset<int>, c: multiset<int>, d: multiset<int>,
                  b2: multiset<int>, d2: multiset<int>)
    requires b2 + d2 == b + d
    ensures a + b2 + c + d2 == a + b + c + d
  {
    forall x ensures (a + b2 + c + d2)[x] == (a + b + c + d)[x] {
      assert (b2 + d2)[x] == (b + d)[x];
    }
  }

  lemma UnionSwap(a: multiset<int>, b: multiset<int>, a2: multiset<int>, b2: multiset<int>)
    requires a2 + b2 == a + b
    ensures b2 + a2 == b + a
  {
    forall x ensures (b2 + a2)[x] == (b + a)[x] {
      assert (a2 + b2)[x] == (a + b)[x];
    }
  }

  lemma ArrivalReadyShift(s: State, r: State)
    requires r.io == s.io && r.logs == s.logs && r.nullUsage == s.nullUsage
    requires multiset(Pids(r.arrival)) + multiset(Pids(r.ready)) == multiset(Pids(s.arrival)) + multiset(Pids(s.ready))
    requires TotalCpu(r.arrival) + TotalCpu(r.ready) == TotalCpu(s.arrival) + TotalCpu(s.ready)
    ensures Keeps(s, r)
  {
  }

  lemma ReadyIoShift(s: State, r: State)
    requires r.arrival == s.arrival && r.logs == s.logs && r.nullUsage == s.nullUsage
    requires multiset(Pids(r.ready)) + multiset(Pids(r.io)) == multiset(Pids(s.ready)) + multiset(Pids(s.io))
    requires TotalCpu(r.ready) + TotalCpu(r.io) == TotalCpu(s.ready) + TotalCpu(s.io)
    ensures Keeps(s, r)
  {
    PairShift(multiset(Pids(s.arrival)), multiset(Pids(s.ready)), multiset(Pids(s.io)), multiset(Pids(s.logs)),
              multiset(Pids(r.ready)), multiset(Pids(r.io)));
  }

  lemma ReadyLogsShift(s: State, r: State)
    requires r.arrival == s.arrival && r.io == s.io && r.nullUsage == s.nullUsage
    requires multiset(Pids(r.ready)) + multiset(Pids(r.logs)) == multiset(Pids(s.ready)) + multiset(Pids(s.logs))
    requires TotalCpu(r.ready) + TotalCpu(r.logs) == TotalCpu(s.ready) + TotalCpu(s.logs)
    ensures Keeps(s, r)
  {
    SkipShift(multiset(Pids(s.arrival)), multiset(Pids(s.ready)), multiset(Pids(s.io)), multiset(Pids(s.logs)),
              multiset(Pids(r.ready)), multiset(Pids(r.logs)));
  }

  // ---------------------------------------------------------------------
  // check_top_process_quanta and halt_process
  // ---------------------------------------------------------------------

  lemma HaltKeeps(s: State)
    requires |s.ready| > 0 && s.ready[0].key <= MinPriority
    requires s.ready[0].proc.pid !in Pids(s.ready[1..])
    ensures Keeps(s, HaltProcess(s))
  {
    var d := Demote(s.ready[0]);
    Requeue(s.ready, d.proc, d.key);
  }

  lemma HaltShape(s: State)
    requires |s.ready| > 0 && Schedulable(s) && SortedQueues(s)
    ensures Schedulable(HaltProcess(s)) && SortedQueues(HaltProcess(s))
  {
    var d := Demote(s.ready[0]);
    InsertKeepsSorted(s.ready[1..], d.proc, d.key);
    PopFrontSorted(s.ready);
    PopFrontMembers(s.ready);
  }

  /** Halting keeps the invariant and moves no process and no CPU time. */
  lemma HaltPreserves(s: State)
    requires Invariant(s) && s.ready != []
    ensures Invariant(HaltProcess(s)) && Keeps(s, HaltProcess(s))
  {
    ReadyFrontFresh(s);
    HaltKeeps(s);
    HaltShape(s);
  }

  /** Charging the front one quantum moves no process and no CPU time. */
  lemma ChargeKeeps(s: State)
    requires s.ready != []
    ensures Keeps(s, s.(ready := UpdateFront(s.ready, s.ready[0].proc.(quanta := s.ready[0].proc.quanta + 1))))
  {
    UpdateFrontFacts(s.ready, s.ready[0].proc.(quanta := s.ready[0].proc.quanta + 1));
  }

  /** Charging the front one quantum keeps levels, behaviours and order. */
  lemma ChargeShape(s: State)
    requires s.ready != [] && Schedulable(s) && SortedQueues(s)
    ensures var r := s.(ready := UpdateFront(s.ready, s.ready[0].proc.(quanta := s.ready[0].proc.quanta + 1)));
      Schedulable(r) && SortedQueues(r)
  {
    UpdateFrontFacts(s.ready, s.ready[0].proc.(quanta := s.ready[0].proc.quanta + 1));
  }

  lemma ChargePreserves(s: State)
    requires Invariant(s) && s.ready != []
    ensures var r := s.(ready := UpdateFront(s.ready, s.ready[0].proc.(quanta := s.ready[0].proc.quanta + 1)));
      Invariant(r) && Keeps(s, r)
  {
    ChargeKeeps(s);
    ChargeShape(s);
  }

  /** The quantum check keeps levels valid and behaviours present. */
  lemma CheckQuantaSchedulable(s: State)
    requires Schedulable(s)
    ensures Schedulable(CheckTopProcessQuanta(s))
  {
    if s.ready != [] {
      var e := s.ready[0];
      PopFrontMembers(s.ready);
      if e.proc.quanta + 1 < QuantumThreshold[e.key] {
        UpdateFrontFacts(s.ready, e.proc.(quanta := e.proc.quanta + 1));
      }
    }
  }

  /** The quantum check keeps the invariant and moves no process and no CPU
      time. */
  lemma CheckQuantaPreserves(s: State)
    requires Invariant(s)
    ensures Invariant(CheckTopProcessQuanta(s)) && Keeps(s, CheckTopProcessQuanta(s))
  {
    if s.ready != [] {
      var e := s.ready[0];
      if e.proc.quanta + 1 >= QuantumThreshold[e.key] {
        assert CheckTopProcessQuanta(s) == HaltProcess(s);
        HaltPreserves(s);
      } else {
        ChargePreserves(s);
      }
    } else {
      assert CheckTopProcessQuanta(s) == s;
    }
  }

  // ---------------------------------------------------------------------
  // queue_new_processes
  // ---------------------------------------------------------------------

  /** One admission: the arrival front enters the ready queue at level 0. */
  function AdmitOne(s: State): (r: State)
    requires s.arrival != []
    ensures r.arrival == s.arrival[1..] && r.io == s.io && r.logs == s.logs
    ensures r.nullUsage == s.nullUsage && r.clock == s.clock
    ensures forall e | e in s.ready :: e in r.ready
  {
    s.(arrival := s.arrival[1..], ready := Insert(s.ready, s.arrival[0].proc, MaxPriority))
  }

  lemma AdmitOneKeeps(s: State)
    requires s.arrival != [] && s.arrival[0].proc.pid !in Pids(s.ready)
    ensures Keeps(s, AdmitOne(s))
    ensures Entry(s.arrival[0].proc, MaxPriority) in AdmitOne(s).ready
  {
    Move(s.arrival, s.ready, s.arrival[0].proc, MaxPriority);
    ArrivalReadyShift(s, AdmitOne(s));
  }

  lemma AdmitOneShape(s: State)
    requires s.arrival != [] && Schedulable(s) && SortedQueues(s)
    ensures Schedulable(AdmitOne(s)) && SortedQueues(AdmitOne(s))
  {
    InsertKeepsSorted(s.ready, s.arrival[0].proc, MaxPriority);
    PopFrontSorted(s.arrival);
    PopFrontMembers(s.arrival);
  }

  lemma AdmitOnePreserves(s: State)
    requires Invariant(s) && s.arrival != []
    ensures Invariant(AdmitOne(s)) && Keeps(s, AdmitOne(s))
    ensures Entry(s.arrival[0].proc, MaxPriority) in AdmitOne(s).ready
  {
    ArrivalFrontFresh(s);
    AdmitOneKeeps(s);
    AdmitOneShape(s);
  }

  /** Admission keeps the invariant and loses and duplicates no process. */
  lemma {:induction false} AdmitArrivalsPreserves(s: State)
    requires Invariant(s)
    ensures Invariant(AdmitArrivals(s)) && Keeps(s, AdmitArrivals(s))
    decreases |s.arrival|
  {
    if s.arrival != [] && s.arrival[0].key <= s.clock {
      assert AdmitArrivals(s) == AdmitArrivals(AdmitOne(s));
      AdmitOnePreserves(s);
      AdmitArrivalsPreserves(AdmitOne(s));
    } else {
      assert AdmitArrivals(s) == s;
    }
  }

  /** Every admitted process sits in the ready queue at the highest level. */
  lemma {:induction false} AdmittedAtTop(s: State)
    requires Invariant(s)
    ensures forall j :: 0 <= j < Slot(s.arrival, s.clock) ==>
      Entry(s.arrival[j].proc, MaxPriority) in AdmitArrivals(s).ready
    decreases |s.arrival|
  {
    if s.arrival != [] && s.arrival[0].key <= s.clock {
      var next := AdmitOne(s);
      assert AdmitArrivals(s) == AdmitArrivals(next);
      AdmitOnePreserves(s);
      AdmittedAtTop(next);
      AdmitArrivalsShape(next);
      assert Slot(s.arrival, s.clock) == 1 + Slot(next.arrival, s.clock);
      forall j | 0 < j < Slot(s.arrival, s.clock)
        ensures Entry(s.arrival[j].proc, MaxPriority) in AdmitArrivals(s).ready
      {
        assert s.arrival[j] == next.arrival[j - 1];
      }
    } else {
      assert AdmitArrivals(s) == s;
    }
  }

  /** One return: the I/O front re-enters the ready queue at its cached
      level. */
  function ReturnOne(s: State): (r: State)
    requires s.io != []
    ensures r.io == s.io[1..] && r.arrival == s.arrival && r.logs == s.logs
    ensures r.nullUsage == s.nullUsage && r.clock == s.clock
    ensures forall e | e in s.ready :: e in r.ready
  {
    var p := s.io[0].proc;
    s.(io := s.io[1..], ready := Insert(s.ready, p, p.priorityCache))
  }

  lemma ReturnOneKeeps(s: State)
    requires s.io != [] && s.io[0].proc.pid !in Pids(s.ready)
    ensures Keeps(s, ReturnOne(s))
    ensures Entry(s.io[0].proc, s.io[0].proc.priorityCache) in ReturnOne(s).ready
  {
    var p := s.io[0].proc;
    var r := s.(io := s.io[1..], ready := Insert(s.ready, p, p.priorityCache));
    assert ReturnOne(s) == r;
    Move(s.io, s.ready, p, p.priorityCache);
    UnionSwap(multiset(Pids(s.io)), multiset(Pids(s.ready)), multiset(Pids(r.io)), multiset(Pids(r.ready)));
    ReadyIoShift(s, r);
  }

  lemma ReturnOneShape(s: State)
    requires s.io != [] && Schedulable(s) && SortedQueues(s)
    ensures Schedulable(ReturnOne(s)) && SortedQueues(ReturnOne(s))
  {
    InsertKeepsSorted(s.ready, s.io[0].proc, s.io[0].proc.priorityCache);
    PopFrontSorted(s.io);
    PopFrontMembers(s.io);
  }

  lemma ReturnOnePreserves(s: State)
    requires Invariant(s) && s.io != []
    ensures Invariant(ReturnOne(s)) && Keeps(s, ReturnOne(s))
    ensures Entry(s.io[0].proc, s.io[0].proc.priorityCache) in ReturnOne(s).ready
  {
    IoFrontFresh(s);
    ReturnOneKeeps(s);
    ReturnOneShape(s);
  }

  /** Returning from I/O keeps the invariant and loses and duplicates no
      process. */
  lemma {:induction false} ReturnFromIoPreserves(s: State)
    requires Invariant(s)
    ensures Invariant(ReturnFromIo(s)) && Keeps(s, ReturnFromIo(s))
    decreases |s.io|
  {
    if s.io != [] && s.io[0].key <= s.clock {
      assert ReturnFromIo(s) == ReturnFromIo(ReturnOne(s));
      ReturnOnePreserves(s);
      ReturnFromIoPreserves(ReturnOne(s));
    } else {
      assert ReturnFromIo(s) == s;
    }
  }

  /** Every process back from I/O sits in the ready queue at its cached
      level. */
  lemma {:induction false} ReturnedAtCache(s: State)
    requires Invariant(s)
    ensures forall j :: 0 <= j < Slot(s.io, s.clock) ==>
      Entry(s.io[j].proc, s.io[j].proc.priorityCache) in ReturnFromIo(s).ready
    decreases |s.io|
  {
    if s.io != [] && s.io[0].key <= s.clock {
      var next := ReturnOne(s);
      assert ReturnFromIo(s) == ReturnFromIo(next);
      ReturnOnePreserves(s);
      ReturnedAtCache(next);
      ReturnFromIoShape(next);
      assert Slot(s.io, s.clock) == 1 + Slot(next.io, s.clock);
      forall j | 0 < j < Slot(s.io, s.clock)
        ensures Entry(s.io[j].proc, s.io[j].proc.priorityCache) in ReturnFromIo(s).ready
      {
        assert s.io[j] == next.io[j - 1];
      }
    } else {
      assert ReturnFromIo(s) == s;
    }
  }

  /** `queue_new_processes` keeps the invariant and loses and duplicates no
      process. */
  lemma QueueNewProcessesPreserves(s: State)
    requires Invariant(s)
    ensures Invariant(QueueNewProcesses(s)) && Keeps(s, QueueNewProcesses(s))
  {
    AdmitArrivalsPreserves(s);
    ReturnFromIoPreserves(AdmitArrivals(s));
  }

  /** After `queue_new_processes` every process that has arrived is ready at
      level 0 and every process whose wait has ended is ready at its cached
      level. */
  lemma QueueNewPlacement(s: State)
    requires Invariant(s)
    ensures forall j :: 0 <= j < Slot(s.arrival, s.clock) ==>
      Entry(s.arrival[j].proc, MaxPriority) in QueueNewProcesses(s).ready
    ensures forall j :: 0 <= j < Slot(s.io, s.clock) ==>
      Entry(s.io[j].proc, s.io[j].proc.priorityCache) in QueueNewProcesses(s).ready
  {
    var a := AdmitArrivals(s);
    AdmittedAtTop(s);
    AdmitArrivalsPreserves(s);
    ReturnedAtCache(a);
    ReturnFromIoShape(a);
  }

  // ---------------------------------------------------------------------
  // schedule_processes
  // ---------------------------------------------------------------------

  lemma TerminateKeeps(s: State)
    requires s.ready != [] && s.ready[0].proc.pid !in Pids(s.logs)
    ensures Keeps(s, TerminateProcess(s))
  {
    var p := s.ready[0].proc;
    Move(s.ready, s.logs, p.(behaviours := []), p.totalCpuUsage);
    ReadyLogsShift(s, TerminateProcess(s));
  }



  lemma TerminateShape(s: State)
    requires s.ready != [] && Schedulable(s) && SortedQueues(s)
    ensures Schedulable(TerminateProcess(s)) && SortedQueues(TerminateProcess(s))
  {
    var p := s.ready[0].proc;
    InsertKeepsSorted(s.logs, p.(behaviours := []), p.totalCpuUsage);
    PopFrontSorted(s.ready);
    PopFrontMembers(s.ready);
  }

  lemma TerminatePreserves(s: State)
    requires Invariant(s) && s.ready != []
    ensures Invariant(TerminateProcess(s)) && Keeps(s, TerminateProcess(s))
  {
    ReadyFrontFresh(s);
    TerminateKeeps(s);
    TerminateShape(s);
  }

  lemma AdvancePreserves(s: State)
    requires Invariant(s) && s.ready != [] && |s.ready[0].proc.behaviours| > 1
    ensures var r := s.(ready := UpdateFront(s.ready, AdvanceBehaviour(s.ready[0].proc)));
      Invariant(r) && Keeps(s, r)
  {
    var p := AdvanceBehaviour(s.ready[0].proc);
    UpdateFrontFacts(s.ready, p);
  }

  lemma SendIoKeeps(s: State)
    requires s.ready != [] && s.ready[0].key <= MinPriority && |s.ready[0].proc.behaviours| > 0
    requires s.ready[0].proc.pid !in Pids(s.io)
    ensures Keeps(s, SendProcessToIo(s))
  {
    var e := s.ready[0];
    var k: nat := s.clock + e.proc.behaviours[0].ioTime;
    var p := BlockForIo(e);
    var r := SendProcessToIo(s);
    assert r.io == Insert(s.io, p, k);
    Move(s.ready, s.io, p, k);
    ReadyIoShift(s, r);
  }

  lemma SendIoShape(s: State)
    requires s.ready != [] && Schedulable(s) && SortedQueues(s)
    ensures Schedulable(SendProcessToIo(s)) && SortedQueues(SendProcessToIo(s))
  {
    var e := s.ready[0];
    var k: nat := s.clock + e.proc.behaviours[0].ioTime;
    var p := BlockForIo(e);
    var r := s.(ready := s.ready[1..], io := Insert(s.io, p, k));
    assert SendProcessToIo(s) == r;
    InsertKeepsSorted(s.io, p, k);
    PopFrontSorted(s.ready);
    PopFrontMembers(s.ready);
  }

  lemma SendIoPreserves(s: State)
    requires Invariant(s) && s.ready != []
    ensures Invariant(SendProcessToIo(s)) && Keeps(s, SendProcessToIo(s))
  {
    ReadyFrontFresh(s);
    SendIoKeeps(s);
    SendIoShape(s);
  }

  /** The scheduling loop keeps the invariant and moves no process and no
      CPU time. */
  lemma {:induction false} SchedulePreserves(s: State)
    requires Invariant(s)
    ensures Invariant(ScheduleProcesses(s)) && Keeps(s, ScheduleProcesses(s))
    decreases |s.ready|, if s.ready == [] then 0 else |s.ready[0].proc.behaviours|
  {
    if s.ready != [] {
      var p := s.ready[0].proc;
      match Decide(p)
      case Terminate =>
        assert ScheduleProcesses(s) == ScheduleProcesses(TerminateProcess(s));
        TerminatePreserves(s);
        SchedulePreserves(TerminateProcess(s));
      case NextBehaviour =>
        var next := s.(ready := UpdateFront(s.ready, AdvanceBehaviour(p)));
        assert ScheduleProcesses(s) == ScheduleProcesses(next);
        AdvancePreserves(s);
        SchedulePreserves(next);
      case BlockIo =>
        assert ScheduleProcesses(s) == ScheduleProcesses(SendProcessToIo(s));
        SendIoPreserves(s);
        SchedulePreserves(SendProcessToIo(s));
      case Dispatch =>
        assert ScheduleProcesses(s) == s;
    }
  }

  // ---------------------------------------------------------------------
  // run_top_process
  // ---------------------------------------------------------------------

  lemma RunBag(s: State)
    ensures Bag(RunTopProcess(s)) == Bag(s)
  {
    if s.ready != [] {
      var p := s.ready[0].proc;
      UpdateFrontFacts(s.ready, p.(units := p.units + 1, totalCpuUsage := p.totalCpuUsage + 1));
    }
  }

  lemma RunShape(s: State)
    requires Schedulable(s) && SortedQueues(s)
    ensures Schedulable(RunTopProcess(s)) && SortedQueues(RunTopProcess(s))
  {
    if s.ready != [] {
      var p := s.ready[0].proc;
      UpdateFrontFacts(s.ready, p.(units := p.units + 1, totalCpuUsage := p.totalCpuUsage + 1));
    }
  }

  /** Running keeps levels valid and behaviours present. */
  lemma RunSchedulable(s: State)
    requires Schedulable(s)
    ensures Schedulable(RunTopProcess(s))
  {
    if s.ready != [] {
      var p := s.ready[0].proc;
      PopFrontMembers(s.ready);
      UpdateFrontFacts(s.ready, p.(units := p.units + 1, totalCpuUsage := p.totalCpuUsage + 1));
    }
  }

  /** Running keeps the invariant and the processes; the tick it adds is
      stated by `RunTopProcess` itself. */
  lemma RunPreserves(s: State)
    requires Invariant(s)
    ensures Invariant(RunTopProcess(s)) && Bag(RunTopProcess(s)) == Bag(s)
  {
    RunBag(s);
    RunShape(s);
  }
}
