/** What a drain leaves behind: when it empties every heap, and when it stops early. */
module JobDrain {
  import opened Options
  import opened JobTable
  import opened JobIndex
  import opened JobWeight
  import opened JobListing

  // ---------- when work is left ----------

  /** One untyped round of draining finds nothing exactly when the heap of the most urgent type
  holds no claimable entry, whatever the other heaps hold. */
  lemma RoundIdle(q: Queue, jobs: Table, now: int, handler: Handler)
    requires ValidQueue(q) && BestType(q.types, q.heaps).Some?
    ensures var t := BestType(q.types, q.heaps).value;
      Serve(q, jobs, now, t, handler).2.None? <==> forall e | e in HeapOf(q, t) :: !Claimable(jobs, e.id)
  {
    NextServesLeast(q, BestType(q.types, q.heaps).value, jobs);
  }

  /** Some heap other than that of the excepted type lists a job that can be claimed. */
  ghost predicate WorkListed(q: Queue, jobs: Table, except: Option<string>) {
    exists u: string, e: Entry :: Some(u) != except && e in HeapOf(q, u) && Claimable(jobs, e.id)
  }

  /** The state in which a drain looks for a job for the last time. */
  function LastLook(q: Queue, jobs: Table, now: int, handler: Handler, late: nat -> bool, n: nat): (Queue, Table)
    decreases Weight(jobs)
  {
    var t := BestType(q.types, q.heaps);
    if Pending(q) == 0 || late(n) || t.None? then (q, jobs)
    else
      var (q', jobs', done) := Serve(q, jobs, now, t.value, handler);
      ServeSpends(q, jobs, now, t.value, handler);
      if done.None? then (q, jobs) else LastLook(q', jobs', now, handler, late, n + 1)
  }

  lemma {:induction false} ListedCounts(types: seq<string>, heaps: map<string, Heap>, t: string)
    requires t in types && t in heaps && heaps[t] != []
    ensures PendingOver(types, heaps) > 0
  {
    if types[0] != t {
      ListedCounts(types[1..], heaps, t);
    }
  }

  /** With no entry pending, or no type to serve, nothing is listed at all. */
  lemma NothingListed(q: Queue, jobs: Table)
    requires ValidQueue(q) && (Pending(q) == 0 || BestType(q.types, q.heaps).None?)
    ensures !WorkListed(q, jobs, None) && BestType(q.types, q.heaps).None?
  {
    var t := BestType(q.types, q.heaps);
    if t.Some? {
      ListedCounts(q.types, q.heaps, t.value);
    }
  }

  lemma ServeValid(q: Queue, jobs: Table, now: int, t: string, handler: Handler)
    requires ValidQueue(q)
    ensures ValidQueue(Serve(q, jobs, now, t, handler).0)
  {
    NextValid(q, t, jobs);
    var (q', found) := Next(q, t, jobs);
    if found.Some? && found.value < |jobs| {
      PushValid(q', jobs[found.value].jobType, jobs[found.value].priority, found.value);
    }
  }

  /** An idle round empties the heap it looked at and no other. */
  lemma IdleRoundLeaves(q: Queue, jobs: Table, now: int, t: string, handler: Handler)
    requires Serve(q, jobs, now, t, handler).2.None?
    ensures WorkListed(Serve(q, jobs, now, t, handler).0, jobs, None) <==> WorkListed(q, jobs, Some(t))
  {
    var q' := Serve(q, jobs, now, t, handler).0;
    assert HeapOf(q', t) == [];
    assert forall u: string | u != t :: HeapOf(q', u) == HeapOf(q, u);
    if WorkListed(q', jobs, None) {
      var u: string, e: Entry :| e in HeapOf(q', u) && Claimable(jobs, e.id);
      assert Some(u) != Some(t) && e in HeapOf(q, u);
    }
    if WorkListed(q, jobs, Some(t)) {
      var u: string, e: Entry :| Some(u) != Some(t) && e in HeapOf(q, u) && Claimable(jobs, e.id);
      assert Some(u) != None && e in HeapOf(q', u);
    }
  }

  /** A drain that does not run out of time leaves claimable work listed exactly if, at its last look,
  another type than the most urgent one listed some. */
  lemma {:induction false} DrainLeavesWorkIff(q: Queue, jobs: Table, now: int, handler: Handler,
      late: nat -> bool, n: nat)
    requires ValidQueue(q) && forall k :: !late(k)
    ensures var (q', jobs', _) := Drained(q, jobs, now, handler, late, n);
      var (last, rows) := LastLook(q, jobs, now, handler, late, n);
      && jobs' == rows
      && (WorkListed(q', jobs', None) <==>
            BestType(last.types, last.heaps).Some? && WorkListed(last, rows, BestType(last.types, last.heaps)))
    decreases Weight(jobs)
  {
    var t := BestType(q.types, q.heaps);
    if Pending(q) == 0 || t.None? {
      NothingListed(q, jobs);
    } else {
      var (q', jobs', done) := Serve(q, jobs, now, t.value, handler);
      ServeSpends(q, jobs, now, t.value, handler);
      if done.None? {
        IdleRoundLeaves(q, jobs, now, t.value, handler);
      } else {
        ServeValid(q, jobs, now, t.value, handler);
        DrainLeavesWorkIff(q', jobs', now, handler, late, n + 1);
      }
    }
  }

  /** So a drain can process nothing although claimable work is listed: a stale urgent entry of
  another type is enough. */
  lemma DrainCanStopEarly(now: int, handler: Handler, late: nat -> bool) returns (q: Queue, jobs: Table)
    requires !late(0)
    ensures ValidQueue(q) && WorkListed(q, jobs, None)
    ensures Drained(q, jobs, now, handler, late, 0).2 == 0 && Drained(q, jobs, now, handler, late, 0).1 == jobs
    ensures WorkListed(Drained(q, jobs, now, handler, late, 0).0, jobs, None)
  {
    var gone := Job("t", "a", 0, 3, None, 0, JobState.Cancelled, 0, None, None);
    var waiting := Job("t", "b", 1, 3, None, 0, Created, 0, None, None);
    var stale, live := Entry(0, 0, 0), Entry(1, 1, 1);
    jobs := [gone, waiting];
    q := Queue(map["a" := [stale], "b" := [live]], ["a", "b"], 2, 100, 30);
    UrgentTypeFirst(q.heaps, stale, live);
    ListedCounts(q.types, q.heaps, "b");
    assert FirstClaimable([stale], jobs) == 1;
    assert Serve(q, jobs, now, "a", handler).2.None?;
    assert Some("b") != Some("a") && Some("b") != None && live in HeapOf(q, "b") && Claimable(jobs, live.id);
    IdleRoundLeaves(q, jobs, now, "a", handler);
  }

  lemma UrgentTypeFirst(heaps: map<string, Heap>, a: Entry, b: Entry)
    requires heaps == map["a" := [a], "b" := [b]] && a.priority < b.priority
    ensures BestType(["a", "b"], heaps) == Some("a")
  {
    assert ["a", "b"][..1] == ["a"] && ["a"][..0] == [];
    assert BestType(["a"], heaps) == Some("a");
  }

  // ---------- when nothing is left ----------

  predicate NoRepeat(h: Heap) {
    forall a, b | 0 <= a < b < |h| :: h[a].id != h[b].id
  }

  /** Every entry names a row that can be claimed, and none names a row that another names. */
  ghost predicate Clean(q: Queue, jobs: Table) {
    && ValidQueue(q) && Faithful(q, jobs)
    && (forall t, e | t in q.heaps && e in q.heaps[t] :: Claimable(jobs, e.id))
    && (forall t | t in q.heaps :: NoRepeat(q.heaps[t]))
  }

  predicate Settled(j: Job) {
    j.state == Succeeded || j.state == DeadLetter
  }

  lemma {:induction false} PushKeepsNoRepeat(h: Heap, e: Entry)
    requires NoRepeat(h) && forall x | x in h :: x.id != e.id
    ensures NoRepeat(PushHeap(h, e))
  {
    if h != [] && !Before(e, h[0]) {
      assert forall x | x in h[1..] :: x in h;
      PushKeepsNoRepeat(h[1..], e);
      var rest := PushHeap(h[1..], e);
      forall b | 0 <= b < |rest| ensures h[0].id != rest[b].id {
        assert rest[b] in rest;
        if rest[b] != e {
          var k :| 0 <= k < |h[1..]| && h[1..][k] == rest[b];
          assert h[k + 1] == rest[b];
        }
      }
    }
  }

  /** Claiming from a clean heap takes its first entry, and what is left is clean without that row. */
  lemma CleanNext(q: Queue, t: string, jobs: Table)
    requires Clean(q, jobs) && t in q.heaps && q.heaps[t] != []
    ensures var (q', found) := Next(q, t, jobs);
      && found == Some(q.heaps[t][0].id) && Claimable(jobs, found.value) && jobs[found.value].jobType == t
      && q' == q.(heaps := q.heaps[t := q.heaps[t][1..]]) && Clean(q', jobs)
      && forall u, e | u in q'.heaps && e in q'.heaps[u] :: e.id != found.value
  {
    var h := q.heaps[t];
    var (q', found) := Next(q, t, jobs);
    assert h[0] in h && Claimable(jobs, h[0].id) && FirstClaimable(h, jobs) == 0;
    NextValid(q, t, jobs);
    assert forall e | e in h[1..] :: e in h;
    forall u, e | u in q'.heaps && e in q'.heaps[u] ensures e.id != found.value {
      assert Names(h[0], t, jobs) && Names(e, u, jobs);
      if u == t {
        var k :| 0 <= k < |h[1..]| && h[1..][k] == e;
        assert h[k + 1].id != h[0].id;
      }
    }
  }

  /** A clean queue stays clean when a row it does not list changes but keeps its identity. */
  lemma CleanWithoutRow(q: Queue, jobs: Table, id: JobId, j: Job)
    requires Clean(q, jobs) && id < |jobs| && SameIdentity(jobs[id], j)
    requires forall t, e | t in q.heaps && e in q.heaps[t] :: e.id != id
    ensures Clean(q, jobs[id := j])
  {
    ListingIgnoresProgress(q, jobs, jobs[id := j]);
  }

  lemma CleanPush(q: Queue, jobs: Table, id: JobId)
    requires Clean(q, jobs) && Claimable(jobs, id)
    requires forall t, e | t in q.heaps && e in q.heaps[t] :: e.id != id
    ensures Clean(PushJob(q, jobs, id), jobs)
  {
    PushValid(q, jobs[id].jobType, jobs[id].priority, id);
    PushListing(q, jobs, id);
    PushKeepsNoRepeat(HeapOf(q, jobs[id].jobType), Entry(jobs[id].priority, q.nextSeq, id));
  }

  /** An empty queue is clean, and a job enqueued at a clean one leaves it clean. */
  lemma CleanEnqueue(q: Queue, jobs: Table, r: Request, now: int)
    requires q == EmptyQueue(q.capacity, q.leaseS) || Clean(q, jobs)
    ensures Clean(PushJob(q, jobs + [NewJob(r, now)], |jobs|), jobs + [NewJob(r, now)])
  {
    var jobs' := jobs + [NewJob(r, now)];
    ListingIgnoresProgress(q, jobs, jobs');
    forall t, e | t in q.heaps && e in q.heaps[t] ensures e.id != |jobs| {
      assert Names(e, t, jobs);
    }
    CleanPush(q, jobs', |jobs|);
  }

  /** Serving a clean queue: it stays clean, the row served is settled or listed again, every other
  row is as it was, listed or not. */
  ghost predicate Served(q: Queue, jobs: Table, q': Queue, jobs': Table, id: JobId) {
    && Clean(q', jobs') && id < |jobs| == |jobs'| && Listed(q, jobs, id) && jobs' == jobs[id := jobs'[id]]
    && (Settled(jobs'[id]) || Listed(q', jobs', id))
    && forall x: JobId | x != id :: Listed(q', jobs', x) <==> Listed(q, jobs, x)
  }

  lemma FinishIsClean(q: Queue, jobs: Table, id: JobId, now: int, lease: int, error: Option<string>)
    requires Clean(q, jobs) && Claimable(jobs, id)
    requires forall t, e | t in q.heaps && e in q.heaps[t] :: e.id != id
    ensures var (q', jobs') := Finish(q, Claim(jobs, id, now, lease), id, error);
      && Clean(q', jobs') && |jobs'| == |jobs| && jobs' == jobs[id := jobs'[id]] && SameIdentity(jobs[id], jobs'[id])
      && (Settled(jobs'[id]) || Listed(q', jobs', id))
      && (q' == q || q' == PushJob(q, jobs', id))
  {
    var claimed := Claim(jobs, id, now, lease);
    var (q', jobs') := Finish(q, claimed, id, error);
    assert jobs' == jobs[id := jobs'[id]];
    CleanWithoutRow(q, jobs, id, jobs'[id]);
    if jobs'[id].state == Queued {
      CleanPush(q, jobs', id);
      PushListing(q, jobs', id);
    }
  }

  lemma NextKeepsListed(q: Queue, t: string, jobs: Table, x: JobId)
    requires Clean(q, jobs) && t in q.heaps && q.heaps[t] != [] && x != q.heaps[t][0].id
    ensures Listed(Next(q, t, jobs).0, jobs, x) <==> Listed(q, jobs, x)
  {
    CleanNext(q, t, jobs);
    var q' := Next(q, t, jobs).0;
    var h := q.heaps[t];
    if Listed(q, jobs, x) {
      var e :| e in HeapOf(q, jobs[x].jobType) && e.id == x;
      assert e in h ==> e in h[1..];
      assert e in HeapOf(q', jobs[x].jobType);
    }
    if Listed(q', jobs, x) {
      var e :| e in HeapOf(q', jobs[x].jobType) && e.id == x;
      assert e in h[1..] ==> e in h;
      assert e in HeapOf(q, jobs[x].jobType);
    }
  }

  /** Pushing one row, or none, changes no other row's listing. */
  lemma PushKeepsListed(q: Queue, jobs: Table, q': Queue, jobs': Table, id: JobId, x: JobId)
    requires |jobs'| == |jobs| && id < |jobs| && jobs' == jobs[id := jobs'[id]] && x != id
    requires q' == q || q' == PushJob(q, jobs', id)
    ensures Listed(q', jobs', x) <==> Listed(q, jobs, x)
  {
    if Listed(q, jobs, x) {
      var e :| e in HeapOf(q, jobs[x].jobType) && e.id == x;
      assert e in HeapOf(q', jobs'[x].jobType);
    }
    if Listed(q', jobs', x) {
      var e :| e in HeapOf(q', jobs'[x].jobType) && e.id == x;
      assert e in HeapOf(q, jobs[x].jobType);
    }
  }

  lemma ServeIsServed(q: Queue, jobs: Table, now: int, t: string, handler: Handler)
    requires Clean(q, jobs) && t in q.heaps && q.heaps[t] != []
    ensures var (q', jobs', done) := Serve(q, jobs, now, t, handler);
      done.Some? && Served(q, jobs, q', jobs', done.value)
  {
    CleanNext(q, t, jobs);
    var (rest, found) := Next(q, t, jobs);
    var id := found.value;
    var claimed := Claim(jobs, id, now, q.leaseS);
    var error := handler(id, claimed[id].attempts);
    FinishIsClean(rest, jobs, id, now, q.leaseS, error);
    var (q', jobs') := Finish(rest, claimed, id, error);
    assert Listed(q, jobs, id) by {
      assert q.heaps[t][0] in HeapOf(q, jobs[id].jobType);
    }
    forall x: JobId | x != id ensures Listed(q', jobs', x) <==> Listed(q, jobs, x) {
      NextKeepsListed(q, t, jobs, x);
      PushKeepsListed(rest, jobs, q', jobs', id, x);
    }
  }

  /** What a drain that runs to its end makes of the rows: those it had listed succeed or become dead
  letters, the others are untouched, and no heap lists anything. */
  ghost predicate AllServed(q: Queue, jobs: Table, q': Queue, jobs': Table) {
    && (forall t | t in q'.heaps :: q'.heaps[t] == [])
    && |jobs'| == |jobs|
    && forall x | 0 <= x < |jobs| :: if Listed(q, jobs, x) then Settled(jobs'[x]) else jobs'[x] == jobs[x]
  }

  lemma NothingPending(q: Queue, jobs: Table)
    requires Clean(q, jobs) && (Pending(q) == 0 || BestType(q.types, q.heaps).None?)
    ensures AllServed(q, jobs, q, jobs)
  {
    forall t | t in q.heaps ensures q.heaps[t] == [] {
      if q.heaps[t] != [] {
        ListedCounts(q.types, q.heaps, t);
      }
    }
  }

  lemma ServedComposes(q: Queue, jobs: Table, q1: Queue, jobs1: Table, id: JobId, q2: Queue, jobs2: Table)
    requires Served(q, jobs, q1, jobs1, id) && AllServed(q1, jobs1, q2, jobs2)
    ensures AllServed(q, jobs, q2, jobs2)
  {
  }

  /** Whatever the handlers answer and however often jobs are retried, a drain that does not run out of
  time empties every heap of a clean queue and brings every job it had listed to its end. */
  lemma {:induction false} CleanDrainServesAll(q: Queue, jobs: Table, now: int, handler: Handler,
      late: nat -> bool, n: nat)
    requires Clean(q, jobs) && forall k :: !late(k)
    ensures var (q', jobs', _) := Drained(q, jobs, now, handler, late, n); AllServed(q, jobs, q', jobs')
    decreases Weight(jobs)
  {
    var t := BestType(q.types, q.heaps);
    if Pending(q) == 0 || t.None? {
      NothingPending(q, jobs);
    } else {
      var (q1, jobs1, done) := Serve(q, jobs, now, t.value, handler);
      ServeSpends(q, jobs, now, t.value, handler);
      ServeIsServed(q, jobs, now, t.value, handler);
      CleanDrainServesAll(q1, jobs1, now, handler, late, n + 1);
      var (q2, jobs2, _) := Drained(q1, jobs1, now, handler, late, n + 1);
      ServedComposes(q, jobs, q1, jobs1, done.value, q2, jobs2);
    }
  }
}
