/** The one-shot job registry the refresh loop arms and empties
    (the part of gocron's scheduler that the loop uses). */
module Scheduling {
  import opened Config
  import opened Reader

  /** The callback's arguments, captured by value when the job is created. */
  datatype Task = Task(event: Event, calendar: Calendar)

  /** A one-shot job: its handle, when it fires, and what it runs. */
  datatype Job = Job(id: nat, fireAt: int, task: Task)

  /** Job handles increase in the order the jobs were created. */
  ghost predicate IdsAscending(jobs: seq<Job>)
  {
    forall a, b :: 0 <= a < b < |jobs| ==> jobs[a].id < jobs[b].id
  }

  /** The jobs left after removing the one with handle `id`. */
  function Without(jobs: seq<Job>, id: nat): (rest: seq<Job>)
  {
    if jobs == [] then []
    else (if jobs[0].id == id then [] else [jobs[0]]) + Without(jobs[1..], id)
  }

  /** Removing keeps every other job, in order, and drops the removed one. */
  lemma {:induction false} WithoutMeaning(jobs: seq<Job>, id: nat)
    ensures forall j :: j in Without(jobs, id) <==> j in jobs && j.id != id
    ensures IdsAscending(jobs) ==> IdsAscending(Without(jobs, id))
    ensures |Without(jobs, id)| <= |jobs|
  {
    if jobs != [] {
      WithoutMeaning(jobs[1..], id);
      assert jobs == [jobs[0]] + jobs[1..];
      if IdsAscending(jobs) {
        var rest := Without(jobs[1..], id);
        assert forall b :: 0 <= b < |rest| ==> rest[b] in jobs[1..];
        assert forall b :: 0 <= b < |rest| ==> jobs[0].id < rest[b].id;
      }
    }
  }

  class Scheduler {
    var jobs: seq<Job>
    var nextId: nat
    var started: bool

    /** Handles are unique: they increase along `jobs` and stay below the
        next handle to be given out. */
    ghost predicate Valid()
      reads this
    {
      IdsAscending(jobs) && forall k :: 0 <= k < |jobs| ==> jobs[k].id < nextId
    }

    /** The armed jobs as (fire time, task) pairs, in the order they were armed. */
    function Entries(): (entries: seq<(int, Task)>)
      reads this`jobs
    {
      var js := jobs;
      seq(|js|, k requires 0 <= k < |js| => (js[k].fireAt, js[k].task))
    }

    /** `gocron.NewScheduler`: an empty, stopped scheduler. */
    constructor ()
      ensures Valid() && jobs == [] && nextId == 0 && !started
    {
      jobs := [];
      nextId := 0;
      started := false;
    }

    /** `NewJob` with a one-time start: arms one job with a handle no other
        job of this scheduler has had. */
    method NewJob(fireAt: int, task: Task) returns (id: nat)
      requires Valid()
      modifies this
      ensures Valid()
      ensures id == old(nextId) && nextId == old(nextId) + 1
      ensures forall k :: 0 <= k < |old(jobs)| ==> old(jobs)[k].id < id
      ensures jobs == old(jobs) + [Job(id, fireAt, task)]
      ensures Entries() == old(Entries()) + [(fireAt, task)]
      ensures started == old(started)
    {
      id := nextId;
      jobs := jobs + [Job(id, fireAt, task)];
      nextId := nextId + 1;
    }

    /** `Start`: jobs fire from now on; the armed jobs are unchanged. */
    method Start()
      modifies this
      ensures started && jobs == old(jobs) && nextId == old(nextId)
    {
      started := true;
    }

    /** `Jobs`: the armed jobs. */
    method Jobs() returns (js: seq<Job>)
      ensures js == jobs
    {
      js := jobs;
    }

    /** `RemoveJob`: cancels the job with handle `id`, if there is one. */
    method RemoveJob(id: nat)
      requires Valid()
      modifies this
      ensures Valid()
      ensures forall j :: j in jobs <==> j in old(jobs) && j.id != id
      ensures |jobs| <= |old(jobs)|
      ensures nextId == old(nextId) && started == old(started)
    {
      WithoutMeaning(jobs, id);
      jobs := Without(jobs, id);
    }
  }
}
