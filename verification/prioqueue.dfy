/** The priority queue every scheduler queue is built on, as an abstract
    sorted sequence of (process, key) entries: ascending by key, first in
    first out among equal keys, and rejecting a second process with a pid
    that is already queued. */
module PrioQueue {
  import opened Records

  datatype Entry = Entry(proc: Process, key: nat)

  type Queue = seq<Entry>

  /** Iteration order is non-decreasing by key. */
  predicate Sorted(q: Queue) {
    forall i, j :: 0 <= i < j < |q| ==> q[i].key <= q[j].key
  }

  /** The pids of the queued processes, front first. */
  function Pids(q: Queue): (ps: seq<int>)
    ensures |ps| == |q|
    ensures forall i :: 0 <= i < |q| ==> ps[i] == q[i].proc.pid
  {
    if q == [] then [] else [q[0].proc.pid] + Pids(q[1..])
  }

  /** No value occurs twice in the bag. */
  ghost predicate Distinct(m: multiset<int>) {
    forall x :: m[x] <= 1
  }

  /** Lifetime CPU ticks of all queued processes. */
  function TotalCpu(q: Queue): nat {
    if q == [] then 0 else q[0].proc.totalCpuUsage + TotalCpu(q[1..])
  }

  /** The duplicate test run by every insertion, through `ProcessCompare`. */
  function Contains(q: Queue, p: Process): (b: bool)
    ensures b <==> p.pid in Pids(q)
  {
    if q == [] then false
    else ProcessCompare(q[0].proc, p) == 0 || Contains(q[1..], p)
  }

  /** Where an entry with `key` goes: behind every leading entry whose key is
      at most `key`, ahead of the first larger one. */
  function Slot(q: Queue, key: nat): (i: nat)
    ensures i <= |q|
    ensures forall j :: 0 <= j < i ==> q[j].key <= key
    ensures i < |q| ==> key < q[i].key
  {
    if q == [] || key < q[0].key then 0 else 1 + Slot(q[1..], key)
  }

  /** Walks the list and links `e` in at its slot. */
  function InsertSorted(q: Queue, e: Entry): (r: Queue)
    ensures r == q[..Slot(q, e.key)] + [e] + q[Slot(q, e.key)..]
  {
    if q == [] || e.key < q[0].key then [e] + q
    else
      var j := Slot(q[1..], e.key);
      var rest := InsertSorted(q[1..], e);
      assert q[..j + 1] == [q[0]] + q[1..][..j];
      assert q[j + 1..] == q[1..][j..];
      [q[0]] + rest
  }

  /** `add_to_queue`: a no-op when a process with the same pid is queued;
      otherwise one entry more and no entry lost. Where exactly the entry
      goes is stated by `InsertPlacement`, and that the order is kept by
      `InsertKeepsSorted`. */
  function Insert(q: Queue, p: Process, key: nat): (r: Queue)
    ensures p.pid in Pids(q) ==> r == q
    ensures p.pid !in Pids(q) ==> Entry(p, key) in r && |r| == |q| + 1
    ensures forall e | e in r :: e in q || e == Entry(p, key)
    ensures forall e | e in q :: e in r
  {
    if Contains(q, p) then q
    else
      var i := Slot(q, key);
      var r := InsertSorted(q, Entry(p, key));
      assert q == q[..i] + q[i..];
      r
  }

  /** Insertion keeps a queue in key order. */
  lemma InsertKeepsSorted(q: Queue, p: Process, key: nat)
    requires Sorted(q)
    ensures Sorted(Insert(q, p, key))
  {
    SlotSplitsSorted(q, p, key);
  }

  /** The first insertion into an empty queue. */
  lemma InsertEmpty(p: Process, key: nat)
    ensures Insert([], p, key) == [Entry(p, key)]
  {
  }

  /** A fresh entry goes behind every entry whose key is at most its own and
      ahead of every larger key; the others keep their order. */
  lemma InsertPlacement(q: Queue, p: Process, key: nat)
    requires p.pid !in Pids(q)
    ensures exists i ::
      && 0 <= i <= |q| && Insert(q, p, key) == q[..i] + [Entry(p, key)] + q[i..]
      && (forall j :: 0 <= j < i ==> q[j].key <= key)
      && (forall j :: i <= j < |q| && Sorted(q) ==> key < q[j].key)
  {
    SlotSplitsSorted(q, p, key);
    assert Insert(q, p, key) == InsertSorted(q, Entry(p, key));
  }

  /** In a sorted queue every entry from the slot on has a larger key, so
      linking an entry in at the slot keeps the queue sorted. */
  lemma SlotSplitsSorted(q: Queue, p: Process, key: nat)
    ensures Sorted(q) ==> forall j :: Slot(q, key) <= j < |q| ==> key < q[j].key
    ensures Sorted(q) ==> Sorted(q[..Slot(q, key)] + [Entry(p, key)] + q[Slot(q, key)..])
  {
    var i := Slot(q, key);
    if Sorted(q) {
      forall j | i <= j < |q| ensures key < q[j].key {
        assert q[i].key <= q[j].key;
      }
      var r := q[..i] + [Entry(p, key)] + q[i..];
      forall a, b | 0 <= a < b < |r| ensures r[a].key <= r[b].key {
        if b < i {
          assert r[a] == q[a] && r[b] == q[b];
        } else if a > i {
          assert r[a] == q[a - 1] && r[b] == q[b - 1];
        } else if a == i {
          assert r[b] == q[b - 1];
        } else if b == i {
        } else {
          assert r[a] == q[a] && r[b] == q[b - 1];
        }
      }
    }
  }

  /** `update_current`: replace the front process in place, keeping its key. */
  function UpdateFront(q: Queue, p: Process): (r: Queue)
    requires |q| > 0
    ensures |r| == |q| && r[0] == Entry(p, q[0].key) && r[1..] == q[1..]
  {
    [Entry(p, q[0].key)] + q[1..]
  }

  lemma {:induction false} TotalCpuConcat(a: Queue, b: Queue)
    ensures TotalCpu(a + b) == TotalCpu(a) + TotalCpu(b)
    decreases |a|
  {
    if a == [] {
      assert a + b == b;
    } else {
      assert (a + b)[1..] == a[1..] + b;
      TotalCpuConcat(a[1..], b);
    }
  }

  lemma PidsConcat(a: Queue, b: Queue)
    ensures Pids(a + b) == Pids(a) + Pids(b)
  {
    assert |Pids(a + b)| == |Pids(a) + Pids(b)|;
    forall i | 0 <= i < |a + b| ensures Pids(a + b)[i] == (Pids(a) + Pids(b))[i] {
      if i < |a| {
        assert (a + b)[i] == a[i];
      } else {
        assert (a + b)[i] == b[i - |a|];
      }
    }
  }

  /** Linking one entry in between two parts of a queue. */
  lemma SplitFacts(a: Queue, e: Entry, b: Queue)
    ensures multiset(Pids(a + [e] + b)) == multiset(Pids(a + b)) + multiset{e.proc.pid}
    ensures TotalCpu(a + [e] + b) == TotalCpu(a + b) + e.proc.totalCpuUsage
  {
    PidsConcat(a, b);
    PidsConcat(a, [e]);
    PidsConcat(a + [e], b);
    TotalCpuConcat(a, b);
    TotalCpuConcat(a, [e]);
    TotalCpuConcat(a + [e], b);
  }

  /** A pid that is not yet queued is added exactly once, with its CPU time,
      and no other entry appears or disappears. */
  lemma InsertFresh(q: Queue, p: Process, key: nat)
    requires p.pid !in Pids(q)
    ensures multiset(Pids(Insert(q, p, key))) == multiset(Pids(q)) + multiset{p.pid}
    ensures TotalCpu(Insert(q, p, key)) == TotalCpu(q) + p.totalCpuUsage
  {
    var i := Slot(q, key);
    assert Insert(q, p, key) == q[..i] + [Entry(p, key)] + q[i..];
    assert q[..i] + q[i..] == q;
    SplitFacts(q[..i], Entry(p, key), q[i..]);
  }

  /** Insertion never creates a duplicate pid. */
  lemma InsertKeepsDistinct(q: Queue, p: Process, key: nat)
    requires Distinct(multiset(Pids(q)))
    ensures Distinct(multiset(Pids(Insert(q, p, key))))
  {
    if p.pid !in Pids(q) {
      InsertFresh(q, p, key);
      var m := multiset(Pids(Insert(q, p, key)));
      forall x ensures m[x] <= 1 {
        assert multiset(Pids(q))[x] <= 1;
        if x == p.pid {
          assert multiset(Pids(q))[x] == 0;
        }
      }
    }
  }

  /** Splitting off the front entry of a queue: its pid leaves the bag. */
  lemma PopFrontBag(q: Queue)
    requires |q| > 0
    ensures multiset(Pids(q)) == multiset{q[0].proc.pid} + multiset(Pids(q[1..]))
  {
    assert Pids(q) == [q[0].proc.pid] + Pids(q[1..]);
  }

  /** The rest of a sorted queue is sorted. */
  lemma PopFrontSorted(q: Queue)
    requires |q| > 0 && Sorted(q)
    ensures Sorted(q[1..])
  {
    forall i, j | 0 <= i < j < |q| - 1 ensures q[1..][i].key <= q[1..][j].key {
      assert q[1..][i] == q[i + 1] && q[1..][j] == q[j + 1];
    }
  }

  /** Every entry behind the front is an entry of the queue. */
  lemma PopFrontMembers(q: Queue)
    requires |q| > 0
    ensures forall e | e in q[1..] :: e in q
  {
    assert q == [q[0]] + q[1..];
  }

  /** Replacing the front by a record of the same process. */
  lemma UpdateFrontFacts(q: Queue, p: Process)
    requires |q| > 0 && p.pid == q[0].proc.pid
    ensures Pids(UpdateFront(q, p)) == Pids(q)
    ensures TotalCpu(UpdateFront(q, p)) + q[0].proc.totalCpuUsage == TotalCpu(q) + p.totalCpuUsage
    ensures Sorted(q) ==> Sorted(UpdateFront(q, p))
    ensures forall e | e in UpdateFront(q, p) :: e in q[1..] || e == Entry(p, q[0].key)
  {
    var r := UpdateFront(q, p);
    assert r == [r[0]] + r[1..];
    assert Pids(r) == [p.pid] + Pids(q[1..]);
    assert Pids(q) == [q[0].proc.pid] + Pids(q[1..]);
    if Sorted(q) {
      forall i, j | 0 <= i < j < |r| ensures r[i].key <= r[j].key {
        assert q[i].key <= q[j].key;
      }
    }
  }

  /** Moving the front of `a` into `b` as a record of the same process
      neither loses nor duplicates a pid, and keeps the CPU total. */
  lemma Move(a: Queue, b: Queue, p: Process, key: nat)
    requires |a| > 0 && p.pid == a[0].proc.pid && p.totalCpuUsage == a[0].proc.totalCpuUsage
    requires p.pid !in Pids(b)
    ensures multiset(Pids(a[1..])) + multiset(Pids(Insert(b, p, key))) == multiset(Pids(a)) + multiset(Pids(b))
    ensures TotalCpu(a[1..]) + TotalCpu(Insert(b, p, key)) == TotalCpu(a) + TotalCpu(b)
  {
    PopFrontBag(a);
    InsertFresh(b, p, key);
  }

  /** Re-inserting the front of a queue into the rest of it, as a record of
      the same process, keeps its pids and its CPU total. */
  lemma Requeue(q: Queue, p: Process, key: nat)
    requires |q| > 0 && p.pid == q[0].proc.pid && p.totalCpuUsage == q[0].proc.totalCpuUsage
    requires p.pid !in Pids(q[1..])
    ensures multiset(Pids(Insert(q[1..], p, key))) == multiset(Pids(q))
    ensures TotalCpu(Insert(q[1..], p, key)) == TotalCpu(q)
  {
    PopFrontBag(q);
    InsertFresh(q[1..], p, key);
  }
}
