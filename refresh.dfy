/** One pass of the refresh loop in `main`: fetch, arm one job per event on
    a new scheduler, start it, and after the sleep remove every job. */
module Refresh {
  import opened Wrappers
  import opened Config
  import opened Reader
  import opened Notify
  import opened Scheduling

  /** Every event of every batch has a start time. */
  predicate AllStarted(batches: seq<Batch>)
  {
    forall i, k :: 0 <= i < |batches| && 0 <= k < |batches[i].events| ==>
      batches[i].events[k].start.Some?
  }

  /** The job armed for event `k` of `batch`: it fires at the event's start. */
  function JobEntry(batch: Batch, k: nat): (job: (int, Task))
    requires k < |batch.events| && batch.events[k].start.Some?
  {
    (batch.events[k].start.value, Task(batch.events[k], batch.calendar))
  }

  /** The jobs a cycle arms for `batches`: batch by batch, event by event. */
  function Plan(batches: seq<Batch>): (jobs: seq<(int, Task)>)
    requires AllStarted(batches)
  {
    if batches == [] then []
    else
      var last := batches[|batches| - 1];
      assert forall k :: 0 <= k < |last.events| ==> last.events[k].start.Some?;
      Plan(batches[..|batches| - 1])
        + seq(|last.events|, k requires 0 <= k < |last.events| => JobEntry(last, k))
  }

  /** The number of events over all batches. */
  function EventCount(batches: seq<Batch>): (n: nat)
  {
    if batches == [] then 0
    else EventCount(batches[..|batches| - 1]) + |batches[|batches| - 1].events|
  }

  /** The jobs one cycle arms: none when the fetch fails. */
  function CyclePlan(store: Store, calendars: seq<Calendar>, now: int): (jobs: seq<(int, Task)>)
  {
    match Fetch(store, calendars, now)
    case Failure(_) => []
    case Success(batches) =>
      FetchShape(store, calendars, now);
      Plan(batches)
  }

  /** Arming follows batch order: the jobs of `a + b` are those of `a`
      followed by those of `b`. */
  lemma {:induction false} PlanAppend(a: seq<Batch>, b: seq<Batch>)
    requires AllStarted(a) && AllStarted(b)
    ensures AllStarted(a + b)
    ensures Plan(a + b) == Plan(a) + Plan(b)
  {
    assert forall i :: 0 <= i < |b| ==> (a + b)[|a| + i] == b[i];
    if b == [] {
      assert a + b == a;
    } else {
      var init := b[..|b| - 1];
      assert (a + b)[..|a + b| - 1] == a + init;
      PlanAppend(a, init);
    }
  }

  /** One job per event, and each job is the job of some event of some batch;
      each fires at its event's start and carries that event and its
      batch's calendar. */
  lemma {:induction false} PlanMeaning(batches: seq<Batch>)
    requires AllStarted(batches)
    ensures |Plan(batches)| == EventCount(batches)
    ensures forall x :: x in Plan(batches) <==>
      exists i, k :: 0 <= i < |batches| && 0 <= k < |batches[i].events| && x == JobEntry(batches[i], k)
  {
    if batches != [] {
      var init := batches[..|batches| - 1];
      var last := batches[|batches| - 1];
      assert forall i :: 0 <= i < |init| ==> init[i] == batches[i];
      PlanMeaning(init);
      var tail := seq(|last.events|, k requires 0 <= k < |last.events| => JobEntry(last, k));
      assert Plan(batches) == Plan(init) + tail;
      forall x | x in Plan(batches)
        ensures exists i, k :: 0 <= i < |batches| && 0 <= k < |batches[i].events| && x == JobEntry(batches[i], k)
      {
        if x in Plan(init) {
          var i, k :| 0 <= i < |init| && 0 <= k < |init[i].events| && x == JobEntry(init[i], k);
          assert batches[i] == init[i];
        } else {
          var k :| 0 <= k < |tail| && tail[k] == x;
          assert x == JobEntry(batches[|batches| - 1], k);
        }
      }
      forall i, k | 0 <= i < |batches| && 0 <= k < |batches[i].events|
        ensures JobEntry(batches[i], k) in Plan(batches)
      {
        if i < |init| {
          assert JobEntry(init[i], k) in Plan(init);
        } else {
          assert tail[k] == JobEntry(batches[i], k);
        }
      }
    }
  }

  /** Every job a cycle arms fires no earlier than `now`, at the start of the
      event it carries, for one of the configured calendars. */
  lemma CyclePlanJobs(store: Store, calendars: seq<Calendar>, now: int)
    ensures store.connectError.Some? ==> CyclePlan(store, calendars, now) == []
    ensures forall x :: x in CyclePlan(store, calendars, now) ==>
      && x.1.event.start == Some(x.0)
      && x.0 >= now
      && x.1.calendar in calendars
  {
    FetchShape(store, calendars, now);
    if store.connectError.None? {
      var batches := Fetch(store, calendars, now).value;
      PlanMeaning(batches);
      forall x | x in Plan(batches)
        ensures x.1.event.start == Some(x.0) && x.0 >= now && x.1.calendar in calendars
      {
        var i, k :| 0 <= i < |batches| && 0 <= k < |batches[i].events| && x == JobEntry(batches[i], k);
        assert Upcoming(batches[i].events[k], now);
        assert batches[i].calendar == calendars[i];
      }
    }
  }

  /** The arming loop: one `NewJob` per event, batch by batch. */
  method ArmAll(s: Scheduler, batches: seq<Batch>)
    requires s.Valid() && AllStarted(batches)
    modifies s
    ensures s.Valid()
    ensures s.Entries() == old(s.Entries()) + Plan(batches)
    ensures forall k :: |old(s.jobs)| <= k < |s.jobs| ==> s.jobs[k].id >= old(s.nextId)
    ensures s.jobs[..|old(s.jobs)|] == old(s.jobs) && s.started == old(s.started)
  {
    for i := 0 to |batches|
      invariant s.Valid()
      invariant s.Entries() == old(s.Entries()) + Plan(batches[..i])
      invariant |old(s.jobs)| <= |s.jobs| && s.jobs[..|old(s.jobs)|] == old(s.jobs)
      invariant forall k :: |old(s.jobs)| <= k < |s.jobs| ==> old(s.nextId) <= s.jobs[k].id < s.nextId
      invariant old(s.nextId) <= s.nextId && s.started == old(s.started)
    {
      var e := batches[i];
      assert batches[..i + 1][..i] == batches[..i];
      ghost var before := s.Entries();
      for k := 0 to |e.events|
        invariant s.Valid()
        invariant s.Entries() == before + seq(k, m requires 0 <= m < k => JobEntry(e, m))
        invariant |old(s.jobs)| <= |s.jobs| && s.jobs[..|old(s.jobs)|] == old(s.jobs)
        invariant forall m :: |old(s.jobs)| <= m < |s.jobs| ==> old(s.nextId) <= s.jobs[m].id < s.nextId
        invariant old(s.nextId) <= s.nextId && s.started == old(s.started)
      {
        var ce := e.events[k];
        var _ := s.NewJob(ce.start.value, Task(ce, e.calendar));
      }
    }
    assert batches[..|batches|] == batches;
  }

  lemma NothingLeft(jobs: seq<Job>)
    ensures (forall j :: j !in jobs) ==> jobs == []
  {
    if jobs != [] {
      assert jobs[0] in jobs;
    }
  }

  /** The removal loop after the sleep: removes each job `Jobs` lists, which
      leaves the scheduler empty. */
  method RemoveAll(s: Scheduler)
    requires s.Valid()
    modifies s
    ensures s.Valid() && s.jobs == []
    ensures s.nextId == old(s.nextId) && s.started == old(s.started)
  {
    var listed := s.Jobs();
    for k := 0 to |listed|
      invariant s.Valid()
      invariant forall j :: j in s.jobs ==> j in listed && forall m :: 0 <= m < k ==> j.id != listed[m].id
      invariant s.nextId == old(s.nextId) && s.started == old(s.started)
    {
      s.RemoveJob(listed[k].id);
    }
    // Every listed handle has been removed, so no job is left.
    assert forall j :: j !in s.jobs;
    NothingLeft(s.jobs);
  }

  /** The first half of a pass: fetch, create a scheduler, arm one job per
      fetched event and start it. A failed fetch only reports its error: the
      pass then arms nothing. */
  method ArmCycle(store: Store, calendars: seq<Calendar>, now: int) returns (s: Scheduler)
    ensures fresh(s) && s.Valid() && s.started
    ensures s.Entries() == CyclePlan(store, calendars, now)
  {
    var fetched := ReadEvents(store, calendars, now);
    var events: seq<Batch> := [];
    if fetched.Success? {
      events := fetched.value;
    }
    s := new Scheduler();
    assert s.Entries() == [];
    ArmAll(s, events);
    s.Start();
  }

  /** One pass of the refresh loop. `armed` is what the new scheduler holds
      while the loop sleeps; after the removal loop it holds no job. */
  method RefreshCycle(store: Store, calendars: seq<Calendar>, now: int)
    returns (s: Scheduler, armed: seq<(int, Task)>)
    ensures fresh(s) && s.Valid() && s.started && s.jobs == []
    ensures armed == CyclePlan(store, calendars, now)
  {
    s := ArmCycle(store, calendars, now);
    armed := s.Entries();
    RemoveAll(s);
  }

  /** The refresh loop over the cycles that run before the stop signal, each
      seeing the server as it is then and its own `now`. Every cycle starts
      from a new scheduler, so what it arms depends on that cycle alone. */
  method Run(calendars: seq<Calendar>, cycles: seq<(Store, int)>)
    returns (armedPerCycle: seq<seq<(int, Task)>>)
    ensures |armedPerCycle| == |cycles|
    ensures forall c :: 0 <= c < |cycles| ==>
      armedPerCycle[c] == CyclePlan(cycles[c].0, calendars, cycles[c].1)
  {
    armedPerCycle := [];
    for c := 0 to |cycles|
      invariant |armedPerCycle| == c
      invariant forall d :: 0 <= d < c ==>
        armedPerCycle[d] == CyclePlan(cycles[d].0, calendars, cycles[d].1)
    {
      var _, armed := RefreshCycle(cycles[c].0, calendars, cycles[c].1);
      armedPerCycle := armedPerCycle + [armed];
    }
  }
}
