/** The heaps of app/queue/queue.py, on values: an index over the job table.

`heapq` is foreign code and is represented by its contract: a heap is listed in the order in
which it would be popped. Watermarks are compared as exact fractions. */
module JobIndex {
  import opened Options
  import opened JobTable

  datatype Entry = Entry(priority: int, seqNo: nat, id: JobId)

  type Heap = seq<Entry>

  /** `heaps` with its key insertion order, the tie-break counter and the two settings. */
  datatype Queue = Queue(
    heaps: map<string, Heap>, types: seq<string>, nextSeq: nat, capacity: int, leaseS: int)

  predicate Before(a: Entry, b: Entry) {
    || a.priority < b.priority
    || (a.priority == b.priority && a.seqNo < b.seqNo)
    || (a.priority == b.priority && a.seqNo == b.seqNo && a.id < b.id)
  }

  predicate Sorted(h: Heap) {
    forall a, b | 0 <= a < b < |h| :: Before(h[a], h[b])
  }

  predicate Distinct(types: seq<string>) {
    forall a, b | 0 <= a < b < |types| :: types[a] != types[b]
  }

  ghost predicate ValidQueue(q: Queue) {
    && Distinct(q.types)
    && (forall t :: t in q.types <==> t in q.heaps)
    && (forall t | t in q.heaps :: Sorted(q.heaps[t]))
    && (forall t, e | t in q.heaps && e in q.heaps[t] :: e.seqNo < q.nextSeq)
  }

  function EmptyQueue(capacity: int, leaseS: int): Queue {
    Queue(map[], [], 0, capacity, leaseS)
  }

  function HeapOf(q: Queue, t: string): Heap {
    if t in q.heaps then q.heaps[t] else []
  }

  // ---------- heap operations ----------

  function PushHeap(h: Heap, e: Entry): (r: Heap)
    ensures |r| == |h| + 1
    ensures forall x :: x in r <==> x == e || x in h
  {
    if h == [] || Before(e, h[0]) then [e] + h
    else
      assert forall x :: x in h <==> x == h[0] || x in h[1..];
      [h[0]] + PushHeap(h[1..], e)
  }

  lemma {:induction false} PushHeapSorted(h: Heap, e: Entry)
    requires Sorted(h) && forall x | x in h :: x.seqNo < e.seqNo
    ensures Sorted(PushHeap(h, e))
  {
    if h == [] || Before(e, h[0]) {
      assert forall i | 0 <= i < |h| :: Before(e, h[i]);
    } else {
      PushHeapSorted(h[1..], e);
      var rest := PushHeap(h[1..], e);
      forall i | 0 <= i < |rest| ensures Before(h[0], rest[i]) {
        assert rest[i] in rest;
        if rest[i] != e {
          var k :| 0 <= k < |h[1..]| && h[1..][k] == rest[i];
        } else {
          assert h[0] in h;
        }
      }
    }
  }

  /** The position at which popping stops: the first entry whose row can be claimed. */
  function FirstClaimable(h: Heap, jobs: Table): (i: nat)
    ensures i <= |h|
    ensures forall k | 0 <= k < i :: !Claimable(jobs, h[k].id)
    ensures i < |h| ==> Claimable(jobs, h[i].id)
  {
    if h == [] || Claimable(jobs, h[0].id) then 0 else 1 + FirstClaimable(h[1..], jobs)
  }

  function DropId(h: Heap, id: JobId): (r: Heap)
    ensures |r| <= |h|
    ensures forall e :: e in r <==> e in h && e.id != id
  {
    if h == [] then []
    else
      assert forall x :: x in h <==> x == h[0] || x in h[1..];
      (if h[0].id == id then [] else [h[0]]) + DropId(h[1..], id)
  }

  lemma {:induction false} DropIdSorted(h: Heap, id: JobId)
    requires Sorted(h)
    ensures Sorted(DropId(h, id))
  {
    if h != [] {
      DropIdSorted(h[1..], id);
      var rest := DropId(h[1..], id);
      forall i | 0 <= i < |rest| ensures Before(h[0], rest[i]) {
        assert rest[i] in h[1..];
        var k :| 0 <= k < |h[1..]| && h[1..][k] == rest[i];
      }
    }
  }

  // ---------- queue operations ----------

  function Push(q: Queue, t: string, priority: int, id: JobId): Queue {
    q.(heaps := q.heaps[t := PushHeap(HeapOf(q, t), Entry(priority, q.nextSeq, id))],
       types := if t in q.types then q.types else q.types + [t],
       nextSeq := q.nextSeq + 1)
  }

  /** Push a row under its own type and priority; a missing row is not pushed. */
  function PushJob(q: Queue, jobs: Table, id: JobId): Queue {
    if id < |jobs| then Push(q, jobs[id].jobType, jobs[id].priority, id) else q
  }

  function PushAll(q: Queue, jobs: Table, ids: seq<JobId>): Queue {
    if ids == [] then q
    else PushJob(PushAll(q, jobs, ids[..|ids| - 1]), jobs, ids[|ids| - 1])
  }

  /** Pop the heap of one type until a claim succeeds. */
  function Next(q: Queue, t: string, jobs: Table): (Queue, Option<JobId>) {
    if t !in q.heaps then (q, None)
    else
      var h := q.heaps[t];
      var i := FirstClaimable(h, jobs);
      if i < |h| then (q.(heaps := q.heaps[t := h[i + 1..]]), Some(h[i].id))
      else (q.(heaps := q.heaps[t := []]), None)
  }

  function Drop(q: Queue, id: JobId): Queue {
    q.(heaps := map t | t in q.heaps :: DropId(q.heaps[t], id))
  }

  function DropAll(q: Queue, ids: seq<JobId>): Queue {
    if ids == [] then q else Drop(DropAll(q, ids[..|ids| - 1]), ids[|ids| - 1])
  }

  /** The end of processing a claimed job: no error is success; otherwise fail, and back on
  the heap exactly when the store answers QUEUED. */
  function Finish(q: Queue, jobs: Table, id: JobId, error: Option<string>): (Queue, Table) {
    if error.None? then (q, Succeed(jobs, id))
    else
      var jobs' := Fail(jobs, id, error.value);
      if id < |jobs'| && jobs'[id].state == Queued then (PushJob(q, jobs', id), jobs') else (q, jobs')
  }

  /** A handler's verdict on a job at an attempt: None for success, else the error text. */
  type Handler = (JobId, nat) -> Option<string>

  /** Claim the next job of one type and process it to the end, nothing else happening. */
  function Serve(q: Queue, jobs: Table, now: int, t: string, handler: Handler): (Queue, Table, Option<JobId>) {
    var (q', found) := Next(q, t, jobs);
    if found.None? then (q', jobs, None)
    else
      var id := found.value;
      assert Claimable(jobs, id);
      var claimed := Claim(jobs, id, now, q.leaseS);
      var (q'', jobs'') := Finish(q', claimed, id, handler(id, claimed[id].attempts));
      (q'', jobs'', found)
  }

  /** The type whose first entry has the least priority number, the earliest such type. */
  function BestType(types: seq<string>, heaps: map<string, Heap>): (best: Option<string>)
    ensures best.Some? ==> best.value in types && best.value in heaps && heaps[best.value] != []
    ensures best.Some? ==> forall t | t in types && t in heaps && heaps[t] != [] ::
      heaps[best.value][0].priority <= heaps[t][0].priority
    ensures best.None? ==> forall t | t in types && t in heaps :: heaps[t] == []
  {
    if types == [] then None
    else
      var last := types[|types| - 1];
      var earlier := BestType(types[..|types| - 1], heaps);
      assert forall t :: t in types <==> t == last || t in types[..|types| - 1];
      if last !in heaps || heaps[last] == [] then earlier
      else if earlier.Some? && heaps[earlier.value][0].priority <= heaps[last][0].priority then earlier
      else Some(last)
  }

  /** Of the types whose first entries are equally urgent it is the one listed first. */
  lemma {:induction false} EarliestOfTheBest(types: seq<string>, heaps: map<string, Heap>) returns (k: nat)
    requires BestType(types, heaps).Some?
    ensures k < |types| && BestType(types, heaps) == Some(types[k]) && types[k] in heaps && heaps[types[k]] != []
    ensures forall i | 0 <= i < k && types[i] in heaps && heaps[types[i]] != [] ::
      heaps[types[k]][0].priority < heaps[types[i]][0].priority
  {
    var init := types[..|types| - 1];
    if BestType(init, heaps) == BestType(types, heaps) {
      k := EarliestOfTheBest(init, heaps);
    } else {
      k := |types| - 1;
      forall i | 0 <= i < k && types[i] in heaps && heaps[types[i]] != []
        ensures heaps[types[k]][0].priority < heaps[types[i]][0].priority
      {
        assert init[i] in init;
      }
    }
  }

  // ---------- how full the queue is ----------

  function PendingOver(types: seq<string>, heaps: map<string, Heap>): nat {
    if types == [] then 0
    else (if types[0] in heaps then |heaps[types[0]]| else 0) + PendingOver(types[1..], heaps)
  }

  function Pending(q: Queue): nat {
    PendingOver(q.types, q.heaps)
  }

  /** Admission by watermark; without a positive capacity the watermark is never above zero. */
  predicate Admits(q: Queue, priority: int) {
    var p := 100 * Pending(q);
    || q.capacity <= 0
    || p < 70 * q.capacity
    || (p < 85 * q.capacity && priority <= 1)
    || (p < 95 * q.capacity && priority == 0)
  }

  /** The smallest integer not below `percent` per cent of `capacity`. */
  function CeilPercent(percent: nat, capacity: int): (c: int)
    ensures 100 * (c - 1) < percent * capacity <= 100 * c
  {
    -((-(percent * capacity)) / 100)
  }

  // ---------- validity ----------

  lemma PushValid(q: Queue, t: string, priority: int, id: JobId)
    requires ValidQueue(q)
    ensures ValidQueue(Push(q, t, priority, id))
  {
    PushHeapSorted(HeapOf(q, t), Entry(priority, q.nextSeq, id));
  }

  lemma {:induction false} PushAllValid(q: Queue, jobs: Table, ids: seq<JobId>)
    requires ValidQueue(q)
    ensures ValidQueue(PushAll(q, jobs, ids))
  {
    if ids != [] {
      var last := ids[|ids| - 1];
      PushAllValid(q, jobs, ids[..|ids| - 1]);
      if last < |jobs| {
        PushValid(PushAll(q, jobs, ids[..|ids| - 1]), jobs[last].jobType, jobs[last].priority, last);
      }
    }
  }

  lemma NextValid(q: Queue, t: string, jobs: Table)
    requires ValidQueue(q)
    ensures ValidQueue(Next(q, t, jobs).0)
  {
    if t in q.heaps {
      var h := q.heaps[t];
      var i := FirstClaimable(h, jobs);
      if i < |h| {
        assert forall e | e in h[i + 1..] :: e in h;
      }
    }
  }

  lemma DropValid(q: Queue, id: JobId)
    requires ValidQueue(q)
    ensures ValidQueue(Drop(q, id))
  {
    forall t | t in q.heaps ensures Sorted(DropId(q.heaps[t], id)) {
      DropIdSorted(q.heaps[t], id);
    }
  }

  lemma {:induction false} DropAllValid(q: Queue, ids: seq<JobId>)
    requires ValidQueue(q)
    ensures ValidQueue(DropAll(q, ids))
  {
    if ids != [] {
      DropAllValid(q, ids[..|ids| - 1]);
      DropValid(DropAll(q, ids[..|ids| - 1]), ids[|ids| - 1]);
    }
  }

  // ---------- counting ----------

  /** Changing one heap changes the total by the difference of its lengths. */
  lemma {:induction false} PendingAfterUpdate(types: seq<string>, heaps: map<string, Heap>, t: string, h: Heap)
    requires Distinct(types)
    ensures PendingOver(types, heaps[t := h]) ==
      PendingOver(types, heaps) + if t in types then |h| - (if t in heaps then |heaps[t]| else 0) else 0
  {
    if types != [] {
      assert forall k | 0 <= k < |types[1..]| :: types[1..][k] == types[k + 1];
      assert t in types <==> t == types[0] || t in types[1..];
      PendingAfterUpdate(types[1..], heaps, t, h);
    }
  }

  lemma {:induction false} PendingAppend(types: seq<string>, t: string, heaps: map<string, Heap>)
    ensures PendingOver(types + [t], heaps) ==
      PendingOver(types, heaps) + if t in heaps then |heaps[t]| else 0
  {
    if types == [] {
      assert types + [t] == [t];
    } else {
      assert (types + [t])[1..] == types[1..] + [t];
      PendingAppend(types[1..], t, heaps);
    }
  }

  lemma PushCounts(q: Queue, t: string, priority: int, id: JobId)
    requires ValidQueue(q)
    ensures Pending(Push(q, t, priority, id)) == Pending(q) + 1
  {
    var h := PushHeap(HeapOf(q, t), Entry(priority, q.nextSeq, id));
    PendingAfterUpdate(q.types, q.heaps, t, h);
    if t !in q.types {
      PendingAppend(q.types, t, q.heaps[t := h]);
    }
  }

  lemma {:induction false} PushAllCounts(q: Queue, jobs: Table, ids: seq<JobId>)
    requires ValidQueue(q)
    ensures Pending(PushAll(q, jobs, ids)) <= Pending(q) + |ids|
  {
    if ids != [] {
      var last := ids[|ids| - 1];
      PushAllCounts(q, jobs, ids[..|ids| - 1]);
      PushAllValid(q, jobs, ids[..|ids| - 1]);
      if last < |jobs| {
        PushCounts(PushAll(q, jobs, ids[..|ids| - 1]), jobs[last].jobType, jobs[last].priority, last);
      }
    }
  }

  lemma NextCounts(q: Queue, t: string, jobs: Table)
    requires ValidQueue(q)
    ensures Pending(Next(q, t, jobs).0) + (if Next(q, t, jobs).1.Some? then 1 else 0) <= Pending(q)
  {
    if t in q.heaps {
      var h := q.heaps[t];
      var i := FirstClaimable(h, jobs);
      PendingAfterUpdate(q.types, q.heaps, t, if i < |h| then h[i + 1..] else []);
    }
  }

  lemma {:induction false} PendingShrinks(types: seq<string>, a: map<string, Heap>, b: map<string, Heap>)
    requires forall t | t in b :: t in a && |b[t]| <= |a[t]|
    ensures PendingOver(types, b) <= PendingOver(types, a)
  {
    if types != [] {
      PendingShrinks(types[1..], a, b);
    }
  }

  lemma {:induction false} DropAllCounts(q: Queue, ids: seq<JobId>)
    ensures Pending(DropAll(q, ids)) <= Pending(q)
    ensures DropAll(q, ids).types == q.types
    ensures DropAll(q, ids).capacity == q.capacity && DropAll(q, ids).leaseS == q.leaseS
  {
    if ids != [] {
      DropAllCounts(q, ids[..|ids| - 1]);
      var d := DropAll(q, ids[..|ids| - 1]);
      PendingShrinks(q.types, d.heaps, Drop(d, ids[|ids| - 1]).heaps);
    }
  }

  // ---------- claim order ----------

  /** `_next` serves the least claimable entry of the heap, removes only it and smaller
  unclaimable entries, and answers None exactly when no entry is claimable. */
  lemma NextServesLeast(q: Queue, t: string, jobs: Table)
    requires ValidQueue(q)
    ensures var (q', found) := Next(q, t, jobs);
      && (found.None? <==> forall e | e in HeapOf(q, t) :: !Claimable(jobs, e.id))
      && (found.Some? ==> exists e | e in HeapOf(q, t) ::
            && e.id == found.value && Claimable(jobs, e.id)
            && (forall x | x in HeapOf(q, t) && Claimable(jobs, x.id) :: x == e || Before(e, x))
            && (forall x | x in HeapOf(q, t) :: x !in HeapOf(q', t) <==> x == e || Before(x, e)))
      && (forall u | u in q.heaps && u != t :: HeapOf(q', u) == HeapOf(q, u))
  {
    var h := HeapOf(q, t);
    var i := FirstClaimable(h, jobs);
    if t in q.heaps && i < |h| {
      var e := h[i];
      forall x | x in h && Claimable(jobs, x.id) ensures x == e || Before(e, x) {
        var k :| 0 <= k < |h| && h[k] == x;
      }
      forall x | x in h ensures x !in h[i + 1..] <==> x == e || Before(x, e) {
        var k :| 0 <= k < |h| && h[k] == x;
        if k > i {
          assert h[i + 1..][k - i - 1] == x;
        }
      }
    } else {
      forall e | e in h ensures !Claimable(jobs, e.id) {
        var k :| 0 <= k < |h| && h[k] == e;
      }
    }
  }

  /** Of two claimable entries of equal priority in one heap, the earlier pushed goes first:
  the later one is never served while the earlier one is claimable. */
  lemma EqualPriorityIsFifo(q: Queue, t: string, jobs: Table, a: Entry, b: Entry)
    requires ValidQueue(q) && a in HeapOf(q, t) && b in HeapOf(q, t)
    requires a.priority == b.priority && a.seqNo < b.seqNo && a.id != b.id
    requires Claimable(jobs, a.id) && Claimable(jobs, b.id)
    requires forall e | e in HeapOf(q, t) && e.id == b.id :: e == b
    ensures Next(q, t, jobs).1 != Some(b.id)
  {
    NextServesLeast(q, t, jobs);
  }

  /** The share of the capacity, in per cent, up to which jobs of this priority may fill the queue. */
  function Watermark(priority: int): nat {
    if priority == 0 then 95 else if priority <= 1 then 85 else 70
  }

  /** Below a positive capacity an enqueue is accepted exactly if it leaves no more waiting than the
  watermark of its class allows. */
  lemma AdmittedIffWithinWatermark(q: Queue, priority: int)
    requires q.capacity > 0
    ensures Admits(q, priority) <==> Pending(q) + 1 <= CeilPercent(Watermark(priority), q.capacity)
  {
    var c := CeilPercent(Watermark(priority), q.capacity);
  }
}
