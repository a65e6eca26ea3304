/** Loading the workload: the input is a list of five-number records
    "arrival pid cpu_time io_time repeats"; consecutive records with the
    same pid describe the successive behaviours of one process, which is
    filed in the arrival queue keyed by its arrival time. */
module Loader {
  import opened Records
  import opened PrioQueue

  /** One parsed input line. */
  datatype Record = Record(arrival: nat, pid: int, cpuTime: nat, ioTime: nat, repeats: nat)

  function BehaviourOf(r: Record): Behaviour {
    Behaviour(r.cpuTime, r.ioTime, r.repeats)
  }

  /** The record being assembled takes the pid and arrival time of `r` and
      one more behaviour. */
  function Absorb(p: Process, r: Record): Process {
    p.(pid := r.pid, arrivalTime := r.arrival, behaviours := p.behaviours + [BehaviourOf(r)])
  }

  // ---------------------------------------------------------------------
  // Reference grouping
  // ---------------------------------------------------------------------

  /** The processes the records describe, in input order: each maximal run
      of records with one pid becomes one process, which keeps the arrival
      time of the run's last record. */
  function Group(rs: seq<Record>): (ps: seq<Process>)
    ensures |ps| <= |rs|
    ensures rs == [] <==> ps == []
    ensures rs != [] ==> ps[|ps| - 1].pid == rs[|rs| - 1].pid && ps[|ps| - 1].arrivalTime == rs[|rs| - 1].arrival
    decreases |rs|
  {
    if rs == [] then []
    else
      var init := Group(rs[..|rs| - 1]);
      var r := rs[|rs| - 1];
      if init != [] && init[|init| - 1].pid == r.pid then init[..|init| - 1] + [Absorb(init[|init| - 1], r)]
      else init + [Absorb(InitProcess(), r)]
  }

  /** A behaviour together with the pid it belongs to. */
  datatype Tag = Tag(pid: int, behaviour: Behaviour)

  /** What each record contributes, in input order. */
  function Tagged(rs: seq<Record>): (ts: seq<Tag>)
    ensures |ts| == |rs|
    ensures forall i :: 0 <= i < |rs| ==> ts[i] == Tag(rs[i].pid, BehaviourOf(rs[i]))
  {
    seq(|rs|, i requires 0 <= i < |rs| => Tag(rs[i].pid, BehaviourOf(rs[i])))
  }

  /** The behaviours of one process, each tagged with its pid. */
  function Tags(p: Process): (ts: seq<Tag>)
    ensures |ts| == |p.behaviours|
    ensures forall i :: 0 <= i < |ts| ==> ts[i] == Tag(p.pid, p.behaviours[i])
  {
    seq(|p.behaviours|, i requires 0 <= i < |p.behaviours| => Tag(p.pid, p.behaviours[i]))
  }

  /** The tagged behaviours of a list of processes, in order. */
  function Flatten(ps: seq<Process>): seq<Tag> {
    if ps == [] then [] else Flatten(ps[..|ps| - 1]) + Tags(ps[|ps| - 1])
  }

  /** A process as the loader creates it: every counter zero, at least one
      behaviour. */
  predicate Fresh(p: Process) {
    && |p.behaviours| > 0
    && p == InitProcess().(pid := p.pid, arrivalTime := p.arrivalTime, behaviours := p.behaviours)
  }

  lemma FlattenSnoc(ps: seq<Process>, p: Process)
    ensures Flatten(ps + [p]) == Flatten(ps) + Tags(p)
  {
    assert (ps + [p])[..|ps|] == ps;
  }

  lemma TagsAbsorb(p: Process, r: Record)
    requires p.pid == r.pid
    ensures Tags(Absorb(p, r)) == Tags(p) + [Tag(r.pid, BehaviourOf(r))]
  {
  }

  lemma TaggedSnoc(rs: seq<Record>)
    requires rs != []
    ensures Tagged(rs) == Tagged(rs[..|rs| - 1]) + [Tag(rs[|rs| - 1].pid, BehaviourOf(rs[|rs| - 1]))]
  {
  }

  /** A run extended by one more record of its pid: its behaviours gain
      that record's behaviour at the end. */
  lemma FlattenMerge(rest: seq<Process>, last: Process, r: Record)
    requires last.pid == r.pid
    ensures Flatten(rest + [Absorb(last, r)]) == Flatten(rest + [last]) + [Tag(r.pid, BehaviourOf(r))]
  {
    FlattenSnoc(rest, Absorb(last, r));
    FlattenSnoc(rest, last);
    TagsAbsorb(last, r);
  }

  /** A record of a new pid starts a run of its own. */
  lemma FlattenNew(init: seq<Process>, r: Record)
    ensures Flatten(init + [Absorb(InitProcess(), r)]) == Flatten(init) + [Tag(r.pid, BehaviourOf(r))]
  {
    FlattenSnoc(init, Absorb(InitProcess(), r));
    assert Tags(Absorb(InitProcess(), r)) == [Tag(r.pid, BehaviourOf(r))];
  }

  /** Grouping loses, adds and reorders no behaviour and keeps each one with
      its record's pid. */
  lemma {:induction false} GroupFlatten(rs: seq<Record>)
    ensures Flatten(Group(rs)) == Tagged(rs)
    decreases |rs|
  {
    if rs != [] {
      var front := rs[..|rs| - 1];
      var r := rs[|rs| - 1];
      var init := Group(front);
      GroupFlatten(front);
      TaggedSnoc(rs);
      if init != [] && init[|init| - 1].pid == r.pid {
        var last := init[|init| - 1];
        var rest := init[..|init| - 1];
        assert Group(rs) == rest + [Absorb(last, r)];
        assert init == rest + [last];
        FlattenMerge(rest, last, r);
      } else {
        assert Group(rs) == init + [Absorb(InitProcess(), r)];
        FlattenNew(init, r);
      }
    }
  }

  /** Process `k` of `ps` has the arrival time of the record that supplied
      its last behaviour, counting behaviours through `ps` in order. */
  predicate ArrivesLast(rs: seq<Record>, ps: seq<Process>, k: nat)
    requires k < |ps|
  {
    var i := |Flatten(ps[..k + 1])| - 1;
    0 <= i < |rs| && ps[k].arrivalTime == rs[i].arrival
  }

  /** One more record changes only the last process of the grouping: the
      processes before it are those of the shorter input. */
  lemma GroupPrefix(rs: seq<Record>)
    requires rs != []
    ensures var ps := Group(rs); var init := Group(rs[..|rs| - 1]);
      |ps| - 1 <= |init| && ps[..|ps| - 1] == init[..|ps| - 1]
  {
    var init := Group(rs[..|rs| - 1]);
    var r := rs[|rs| - 1];
    if init != [] && init[|init| - 1].pid == r.pid {
      assert Group(rs) == init[..|init| - 1] + [Absorb(init[|init| - 1], r)];
    } else {
      assert Group(rs) == init + [Absorb(InitProcess(), r)];
    }
  }

  /** A process before the last keeps what it had in the shorter input. */
  lemma ArrivesLastPrefix(rs: seq<Record>, ps: seq<Process>, init: seq<Process>, n: nat, k: nat)
    requires rs != [] && k < n <= |ps| && n <= |init| && ps[..n] == init[..n]
    requires ArrivesLast(rs[..|rs| - 1], init, k)
    ensures ArrivesLast(rs, ps, k)
  {
    assert ps[..k + 1] == init[..k + 1];
    assert ps[k] == init[k];
  }

  /** The last process keeps the arrival time of the last record. */
  lemma ArrivesLastFinal(rs: seq<Record>, ps: seq<Process>)
    requires ps != [] && rs != [] && |Flatten(ps)| == |rs|
    requires ps[|ps| - 1].arrivalTime == rs[|rs| - 1].arrival
    ensures ArrivesLast(rs, ps, |ps| - 1)
  {
    assert ps[..|ps|] == ps;
  }

  /** The grouping of one more record keeps the arrival rule, given that
      the shorter grouping does, that only the last process changed, and
      that the last process carries the last record's arrival time. */
  lemma ArrivalStep(rs: seq<Record>, front: seq<Record>, ps: seq<Process>, init: seq<Process>)
    requires rs != [] && front == rs[..|rs| - 1] && ps != [] && |Flatten(ps)| == |rs|
    requires ps[|ps| - 1].arrivalTime == rs[|rs| - 1].arrival
    requires |ps| - 1 <= |init| && ps[..|ps| - 1] == init[..|ps| - 1]
    requires forall k: nat | k < |init| :: ArrivesLast(front, init, k)
    ensures forall k: nat | k < |ps| :: ArrivesLast(rs, ps, k)
  {
    ArrivesLastFinal(rs, ps);
    forall k: nat | k < |ps| - 1 ensures ArrivesLast(rs, ps, k) {
      ArrivesLastPrefix(rs, ps, init, |ps| - 1, k);
    }
  }

  /** Every process keeps the arrival time of the last record of its run. */
  lemma {:induction false} GroupArrival(rs: seq<Record>)
    ensures forall k: nat | k < |Group(rs)| :: ArrivesLast(rs, Group(rs), k)
    decreases |rs|
  {
    if rs != [] {
      GroupArrival(rs[..|rs| - 1]);
      GroupFlatten(rs);
      GroupPrefix(rs);
      ArrivalStep(rs, rs[..|rs| - 1], Group(rs), Group(rs[..|rs| - 1]));
    }
  }

  /** Neighbouring processes have different pids. */
  predicate Separated(ps: seq<Process>) {
    forall k :: 0 < k < |ps| ==> ps[k - 1].pid != ps[k].pid
  }

  /** Runs are maximal: neighbouring processes have different pids. */
  lemma {:induction false} GroupSeparated(rs: seq<Record>)
    ensures Separated(Group(rs))
    decreases |rs|
  {
    if rs != [] {
      var front := rs[..|rs| - 1];
      var r := rs[|rs| - 1];
      var init := Group(front);
      GroupSeparated(front);
      if init != [] && init[|init| - 1].pid == r.pid {
        var ps := init[..|init| - 1] + [Absorb(init[|init| - 1], r)];
        assert Group(rs) == ps;
        forall k | 0 < k < |ps| ensures ps[k - 1].pid != ps[k].pid {
          assert ps[k - 1] == init[k - 1];
          assert init[k - 1].pid != init[k].pid;
          if k < |ps| - 1 {
            assert ps[k] == init[k];
          } else {
            assert ps[k] == Absorb(init[k], r);
          }
        }
      } else {
        var ps := init + [Absorb(InitProcess(), r)];
        assert Group(rs) == ps;
        forall k | 0 < k < |ps| ensures ps[k - 1].pid != ps[k].pid {
          assert ps[k - 1] == init[k - 1];
          if k < |ps| - 1 {
            assert ps[k] == init[k];
            assert init[k - 1].pid != init[k].pid;
          } else {
            assert k - 1 == |init| - 1;
            assert ps[k] == Absorb(InitProcess(), r);
          }
        }
      }
    }
  }

  /** Every grouped process is fresh. */
  lemma {:induction false} GroupFresh(rs: seq<Record>)
    ensures forall p | p in Group(rs) :: Fresh(p)
    decreases |rs|
  {
    if rs != [] {
      var front := rs[..|rs| - 1];
      var r := rs[|rs| - 1];
      var init := Group(front);
      GroupFresh(front);
      if init != [] && init[|init| - 1].pid == r.pid {
        var ps := init[..|init| - 1] + [Absorb(init[|init| - 1], r)];
        assert Group(rs) == ps;
        assert init[|init| - 1] in init;
        forall p | p in ps ensures Fresh(p) {
          if p in init[..|init| - 1] {
            assert p in init;
          }
        }
      } else {
        var ps := init + [Absorb(InitProcess(), r)];
        assert Group(rs) == ps;
      }
    }
  }

  /** Every grouped process carries the pid of some record. */
  lemma {:induction false} GroupPids(rs: seq<Record>)
    ensures forall p | p in Group(rs) :: exists i :: 0 <= i < |rs| && rs[i].pid == p.pid
    decreases |rs|
  {
    if rs != [] {
      var front := rs[..|rs| - 1];
      var r := rs[|rs| - 1];
      var init := Group(front);
      GroupPids(front);
      var ps := Group(rs);
      forall p | p in ps ensures exists i :: 0 <= i < |rs| && rs[i].pid == p.pid {
        if p.pid == r.pid {
          assert rs[|rs| - 1].pid == p.pid;
        } else {
          assert p in init by {
            if init != [] && init[|init| - 1].pid == r.pid {
              assert ps == init[..|init| - 1] + [Absorb(init[|init| - 1], r)];
              assert p in init[..|init| - 1];
            } else {
              assert ps == init + [Absorb(InitProcess(), r)];
            }
          }
          var i :| 0 <= i < |front| && front[i].pid == p.pid;
          assert rs[i] == front[i];
        }
      }
    }
  }

  // ---------------------------------------------------------------------
  // Filing processes in the arrival queue
  // ---------------------------------------------------------------------

  /** Each process in turn inserted into `q`, keyed by its arrival time. */
  function InsertAll(q: Queue, ps: seq<Process>): Queue {
    if ps == [] then q
    else
      var p := ps[|ps| - 1];
      Insert(InsertAll(q, ps[..|ps| - 1]), p, p.arrivalTime)
  }

  /** Filing keeps the queue sorted and free of duplicate pids, and every
      entry is an old one or one of `ps` keyed by its arrival time. */
  lemma {:induction false} InsertAllFacts(q: Queue, ps: seq<Process>)
    ensures Sorted(q) ==> Sorted(InsertAll(q, ps))
    ensures Distinct(multiset(Pids(q))) ==> Distinct(multiset(Pids(InsertAll(q, ps))))
    ensures forall e | e in InsertAll(q, ps) :: e in q || (e.proc in ps && e.key == e.proc.arrivalTime)
    decreases |ps|
  {
    if ps != [] {
      var init := ps[..|ps| - 1];
      var p := ps[|ps| - 1];
      InsertAllFacts(q, init);
      if Sorted(q) {
        InsertKeepsSorted(InsertAll(q, init), p, p.arrivalTime);
      }
      if Distinct(multiset(Pids(q))) {
        InsertKeepsDistinct(InsertAll(q, init), p, p.arrivalTime);
      }
      forall e | e in InsertAll(q, ps) ensures e in q || (e.proc in ps && e.key == e.proc.arrivalTime) {
        if e != Entry(p, p.arrivalTime) {
          assert e in InsertAll(q, init);
          if e !in q {
            assert e.proc in init;
          }
        }
      }
    }
  }

  /** Filing adds no pid other than those of `ps`. */
  lemma {:induction false} InsertAllPids(q: Queue, ps: seq<Process>, x: int)
    requires x !in Pids(q)
    requires forall i :: 0 <= i < |ps| ==> ps[i].pid != x
    ensures x !in Pids(InsertAll(q, ps))
    decreases |ps|
  {
    if ps != [] {
      var init := ps[..|ps| - 1];
      var p := ps[|ps| - 1];
      assert forall i :: 0 <= i < |init| ==> init[i] == ps[i];
      InsertAllPids(q, init, x);
      var r := InsertAll(q, init);
      forall k | 0 <= k < |InsertAll(q, ps)| ensures Pids(InsertAll(q, ps))[k] != x {
        var e := InsertAll(q, ps)[k];
        if e != Entry(p, p.arrivalTime) {
          assert e in r;
          var m :| 0 <= m < |r| && r[m] == e;
          assert Pids(r)[m] == e.proc.pid;
        }
      }
    }
  }

  /** With pairwise different pids, none of them already queued, every
      process is filed: one entry each, keyed by its arrival time. */
  lemma {:induction false} InsertAllComplete(q: Queue, ps: seq<Process>)
    requires forall i, j :: 0 <= i < j < |ps| ==> ps[i].pid != ps[j].pid
    requires forall i :: 0 <= i < |ps| ==> ps[i].pid !in Pids(q)
    ensures |InsertAll(q, ps)| == |q| + |ps|
    ensures forall i :: 0 <= i < |ps| ==> Entry(ps[i], ps[i].arrivalTime) in InsertAll(q, ps)
    decreases |ps|
  {
    if ps != [] {
      var init := ps[..|ps| - 1];
      var p := ps[|ps| - 1];
      var r := InsertAll(q, init);
      assert (forall i, j :: 0 <= i < j < |init| ==> init[i].pid != init[j].pid)
        && (forall i :: 0 <= i < |init| ==> init[i].pid !in Pids(q))
        && (forall i :: 0 <= i < |init| ==> init[i].pid != p.pid) by {
        assert forall i :: 0 <= i < |init| ==> init[i] == ps[i];
      }
      InsertAllComplete(q, init);
      InsertAllPids(q, init, p.pid);
      assert InsertAll(q, ps) == Insert(r, p, p.arrivalTime);
      forall i | 0 <= i < |ps| ensures Entry(ps[i], ps[i].arrivalTime) in InsertAll(q, ps) {
        if i < |ps| - 1 {
          assert ps[i] == init[i];
        }
      }
    }
  }

  // ---------------------------------------------------------------------
  // load_process_descriptions
  // ---------------------------------------------------------------------

  /** The processes filed before the last record of `rs` is read to its
      end: every group but the last. */
  ghost function Filed(rs: seq<Record>): Queue
    requires rs != []
  {
    var g := Group(rs);
    InsertAll([], g[..|g| - 1])
  }

  /** The process still being assembled after the last record of `rs`. */
  ghost function Assembled(rs: seq<Record>): Process
    requires rs != []
  {
    var g := Group(rs);
    g[|g| - 1]
  }

  /** One more record either extends the process under assembly or files
      it and starts the next. */
  lemma LoadStep(front: seq<Record>, r: Record)
    requires front != []
    ensures var p := Assembled(front);
      p.pid != r.pid ==>
        Filed(front + [r]) == Insert(Filed(front), p, p.arrivalTime)
        && Assembled(front + [r]) == Absorb(InitProcess(), r)
    ensures var p := Assembled(front);
      p.pid == r.pid ==>
        Filed(front + [r]) == Filed(front) && Assembled(front + [r]) == Absorb(p, r)
  {
    var rs := front + [r];
    assert rs[..|rs| - 1] == front;
    var g := Group(front);
    if g[|g| - 1].pid != r.pid {
      var g2 := g + [Absorb(InitProcess(), r)];
      assert Group(rs) == g2;
      assert g2[..|g2| - 1] == g;
      assert g == g[..|g| - 1] + [g[|g| - 1]];
    } else {
      var g2 := g[..|g| - 1] + [Absorb(g[|g| - 1], r)];
      assert Group(rs) == g2;
      assert g2[..|g2| - 1] == g[..|g| - 1];
    }
  }

  lemma LoadFirst(r: Record)
    ensures Filed([r]) == [] && Assembled([r]) == Absorb(InitProcess(), r)
  {
    assert [r][..0] == [];
  }

  lemma LoadLast(rs: seq<Record>)
    requires rs != []
    ensures InsertAll([], Group(rs)) == Insert(Filed(rs), Assembled(rs), Assembled(rs).arrivalTime)
  {
  }

  /** One turn of the record loop keeps the filed processes and the process
      under assembly in step with the grouping of the records read so far. */
  lemma LoadAdvance(rs: seq<Record>, i: nat, q: Queue, process: Process)
    requires i < |rs|
    requires i == 0 ==> q == [] && process == InitProcess()
    requires i > 0 ==> q == Filed(rs[..i]) && process == Assembled(rs[..i])
    ensures var r := rs[i];
      var split := i > 0 && process.pid != r.pid;
      && (split ==> Insert(q, process, process.arrivalTime) == Filed(rs[..i + 1])
                    && Absorb(InitProcess(), r) == Assembled(rs[..i + 1]))
      && (!split ==> q == Filed(rs[..i + 1]) && Absorb(process, r) == Assembled(rs[..i + 1]))
  {
    var r := rs[i];
    assert rs[..i + 1] == rs[..i] + [r];
    if i == 0 {
      LoadFirst(r);
    } else {
      LoadStep(rs[..i], r);
    }
  }

  /** What the record loop still computes from its `i`-th turn on, given
      the queue filed so far, the process under assembly and whether a
      record has been read yet. */
  function LoadFrom(rs: seq<Record>, i: nat, q: Queue, process: Process, isFirst: bool): Queue
    requires i <= |rs|
    decreases |rs| - i
  {
    if i == |rs| then Insert(q, process, process.arrivalTime)
    else
      var r := rs[i];
      var split := !isFirst && process.pid != r.pid;
      var q' := if split then Insert(q, process, process.arrivalTime) else q;
      var base := if split then InitProcess() else process;
      LoadFrom(rs, i + 1, q', Absorb(base, r), false)
  }

  /** From any turn on, the loop files exactly the grouped processes. */
  lemma {:induction false} LoadFromGroups(rs: seq<Record>, i: nat)
    requires 0 < i <= |rs|
    ensures LoadFrom(rs, i, Filed(rs[..i]), Assembled(rs[..i]), false) == InsertAll([], Group(rs))
    decreases |rs| - i
  {
    if i == |rs| {
      assert rs[..i] == rs;
      LoadLast(rs);
    } else {
      LoadAdvance(rs, i, Filed(rs[..i]), Assembled(rs[..i]));
      LoadFromGroups(rs, i + 1);
    }
  }

  /** The whole record loop, followed by the final filing, files exactly the
      grouped processes; without records it files one empty process. */
  lemma LoadAll(rs: seq<Record>)
    ensures rs == [] ==> LoadFrom(rs, 0, [], InitProcess(), true) == [Entry(InitProcess(), 0)]
    ensures rs != [] ==> LoadFrom(rs, 0, [], InitProcess(), true) == InsertAll([], Group(rs))
  {
    if rs == [] {
      InsertEmpty(InitProcess(), 0);
    } else {
      LoadAdvance(rs, 0, [], InitProcess());
      LoadFromGroups(rs, 1);
    }
  }

  /** The record loop: a change of pid files the process assembled so far
      and starts a fresh one; every record adds a behaviour and overwrites
      the pid and arrival time. The process under assembly is filed once
      more after the last record, so an empty input files one process with
      pid 0 and no behaviours at time 0. */
  method LoadProcessDescriptions(rs: seq<Record>) returns (q: Queue)
    ensures rs == [] ==> q == [Entry(InitProcess(), 0)]
    ensures rs != [] ==> q == InsertAll([], Group(rs))
  {
    var process := InitProcess();
    var isFirst := true;
    q := [];
    var i := 0;
    LoadAll(rs);
    while i < |rs|
      invariant 0 <= i <= |rs|
      invariant LoadFrom(rs, i, q, process, isFirst) == LoadFrom(rs, 0, [], InitProcess(), true)
    {
      ghost var q0, p0, f0 := q, process, isFirst;
      var r := rs[i];
      if !isFirst && process.pid != r.pid {
        q := Insert(q, process, process.arrivalTime);
        process := InitProcess();
      }
      process := Absorb(process, r);
      isFirst := false;
      i := i + 1;
      assert LoadFrom(rs, i - 1, q0, p0, f0) == LoadFrom(rs, i, q, process, isFirst);
    }
    q := Insert(q, process, process.arrivalTime);
  }

  /** The arrival queue the loader produces: sorted by arrival time, each
      pid at most once, every entry a fresh process keyed by its arrival
      time and carrying the pid of some record. */
  lemma LoadedQueue(rs: seq<Record>)
    requires rs != []
    ensures var q := InsertAll([], Group(rs));
      && Sorted(q) && Distinct(multiset(Pids(q)))
      && (forall e | e in q :: Fresh(e.proc) && e.key == e.proc.arrivalTime)
      && (forall e | e in q :: exists i :: 0 <= i < |rs| && rs[i].pid == e.proc.pid)
  {
    var ps := Group(rs);
    InsertAllFacts([], ps);
    GroupFresh(rs);
    GroupPids(rs);
    assert multiset(Pids([])) == multiset{};
  }

  /** When no pid comes back after a different one, every run of records is
      filed as its own process. */
  lemma LoadedComplete(rs: seq<Record>)
    requires var ps := Group(rs); forall i, j :: 0 <= i < j < |ps| ==> ps[i].pid != ps[j].pid
    ensures var ps := Group(rs);
      && |InsertAll([], ps)| == |ps|
      && forall i :: 0 <= i < |ps| ==> Entry(ps[i], ps[i].arrivalTime) in InsertAll([], ps)
  {
    InsertAllComplete([], Group(rs));
  }
}
