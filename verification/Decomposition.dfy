/** Fan-out of a decomposition plan into jobs, and the scheduler that unblocks them. */
module Decomposition {
  import opened Wrappers
  import opened DagValidator

  // ---------------------------------------------------------------- data

  datatype JobState = Pending | Running | Succeeded | Failed | Poison | Blocked

  datatype JobType = SubtaskJob | ContinuationJob

  datatype Job = Job(jobId: string, jobType: JobType, planId: string, state: JobState, dependsOn: seq<string>)

  datatype JoinState = Waiting | Joined | JoinFailed

  datatype Handle = Handle(children: seq<string>, completed: seq<string>, failed: seq<string>, state: JoinState)

  /** The job store with its listing order, the queue, and the join handle of each plan. */
  datatype Sched = Sched(jobs: map<string, Job>, order: seq<string>, queue: seq<string>, handles: map<string, Handle>)

  predicate CanTransition(current: JobState, target: JobState) {
    || (current.Pending? && (target.Running? || target.Blocked? || target.Failed?))
    || (current.Running? && (target.Succeeded? || target.Failed? || target.Poison?))
    || (current.Blocked? && (target.Pending? || target.Failed?))
  }

  // ---------------------------------------------------------------- join handle

  function Advance(h: Handle): Handle {
    if |h.completed| + |h.failed| < |h.children| then h
    else h.(state := if |h.completed| == |h.children| && |h.failed| == 0 then Joined else JoinFailed)
  }

  function MarkCompleted(h: Handle, id: string): Handle {
    if id !in h.children then h
    else Advance(if id in h.completed then h else h.(completed := h.completed + [id]))
  }

  function MarkFailed(h: Handle, id: string): Handle {
    if id !in h.children then h
    else Advance(if id in h.failed then h else h.(failed := h.failed + [id]))
  }

  // ---------------------------------------------------------------- enqueueing

  /** Registers a fresh job; one with dependencies is held back as BLOCKED. */
  function Enqueue(st: Sched, job: Job): Sched {
    if job.dependsOn != [] then
      st.(jobs := st.jobs[job.jobId := job.(state := Blocked)], order := st.order + [job.jobId])
    else
      st.(jobs := st.jobs[job.jobId := job], order := st.order + [job.jobId], queue := st.queue + [job.jobId])
  }

  /** One subtask job per position, with the given dependency lists. */
  function EnqueueSubtasks(st: Sched, planId: string, ids: seq<string>, deps: seq<seq<string>>): Sched
    requires |ids| == |deps|
  {
    if |ids| == 0 then st
    else
      var n := |ids| - 1;
      Enqueue(EnqueueSubtasks(st, planId, ids[..n], deps[..n]), Job(ids[n], SubtaskJob, planId, Pending, deps[n]))
  }

  /** Subtask jobs, then the join handle, then the continuation that depends on every child. */
  function FannedOut(st: Sched, planId: string, ids: seq<string>, deps: seq<seq<string>>, continuation: string): Sched
    requires |ids| == |deps|
  {
    var children := EnqueueSubtasks(st, planId, ids, deps);
    Enqueue(children.(handles := children.handles[planId := Handle(ids, [], [], Waiting)]),
            Job(continuation, ContinuationJob, planId, Pending, ids))
  }

  /** The dependency lists as fan-out writes them: the subtask ids of the plan. */
  function AsWritten(plan: seq<SubtaskSpec>): (deps: seq<seq<string>>)
    ensures |deps| == |plan|
  {
    seq(|plan|, i requires 0 <= i < |plan| => plan[i].dependsOn)
  }

  // ---------------------------------------------------------------- completion hooks

  predicate DepsSatisfied(jobs: map<string, Job>, job: Job) {
    forall d :: d in job.dependsOn ==> d in jobs && jobs[d].state.Succeeded?
  }

  predicate Unblockable(jobs: map<string, Job>, planId: string, id: string) {
    && id in jobs && jobs[id].planId == planId && jobs[id].state.Blocked?
    && jobs[id].dependsOn != [] && DepsSatisfied(jobs, jobs[id])
  }

  function Unblock(st: Sched, planId: string, id: string): Sched {
    if Unblockable(st.jobs, planId, id) then
      st.(jobs := st.jobs[id := st.jobs[id].(state := Pending)], queue := st.queue + [id])
    else st
  }

  function UnblockAll(st: Sched, planId: string, ids: seq<string>): Sched {
    if |ids| == 0 then st else Unblock(UnblockAll(st, planId, ids[..|ids| - 1]), planId, ids[|ids| - 1])
  }

  function ChildSuccess(st: Sched, id: string): Sched {
    if id !in st.jobs || st.jobs[id].planId !in st.handles then st
    else
      var p := st.jobs[id].planId;
      UnblockAll(st.(handles := st.handles[p := MarkCompleted(st.handles[p], id)]), p, st.order)
  }

  function CancelSibling(st: Sched, planId: string, failedId: string, id: string): Sched {
    if id == failedId || id !in st.jobs || planId !in st.handles
       || !(st.jobs[id].state.Blocked? || st.jobs[id].state.Pending?) then st
    else st.(jobs := st.jobs[id := st.jobs[id].(state := Failed)],
             handles := st.handles[planId := MarkFailed(st.handles[planId], id)])
  }

  function CancelSiblings(st: Sched, planId: string, failedId: string, ids: seq<string>): Sched {
    if |ids| == 0 then st
    else CancelSibling(CancelSiblings(st, planId, failedId, ids[..|ids| - 1]), planId, failedId, ids[|ids| - 1])
  }

  function ChildFailure(st: Sched, id: string): Sched {
    if id !in st.jobs || st.jobs[id].planId !in st.handles then st
    else
      var p := st.jobs[id].planId;
      CancelSiblings(st.(handles := st.handles[p := MarkFailed(st.handles[p], id)]), p, id, st.handles[p].children)
  }

  // ---------------------------------------------------------------- what the hooks may do

  /** A job's state is left as it was, or changed as the state machine permits. */
  ghost predicate Legal(before: map<string, Job>, after: map<string, Job>) {
    && after.Keys == before.Keys
    && forall x :: x in before ==>
         after[x] == before[x].(state := after[x].state)
         && (after[x].state == before[x].state || CanTransition(before[x].state, after[x].state))
  }

  /** Both hooks change states as the state machine permits, and nothing else of any job. */
  lemma {:induction false} ReleasingIsLegal(st: Sched, planId: string, ids: seq<string>)
    ensures Legal(st.jobs, UnblockAll(st, planId, ids).jobs)
    ensures forall x :: x in st.jobs && UnblockAll(st, planId, ids).jobs[x] != st.jobs[x] ==> st.jobs[x].state.Blocked?
  {
    hide DepsSatisfied;
    if |ids| > 0 { ReleasingIsLegal(st, planId, ids[..|ids| - 1]); }
  }

  lemma {:induction false} CancellingIsLegal(st: Sched, planId: string, failedId: string, ids: seq<string>)
    ensures Legal(st.jobs, CancelSiblings(st, planId, failedId, ids).jobs)
    ensures forall x :: x in st.jobs && CancelSiblings(st, planId, failedId, ids).jobs[x] != st.jobs[x] ==>
              CancelSiblings(st, planId, failedId, ids).jobs[x].state.Failed?
              && (st.jobs[x].state.Blocked? || st.jobs[x].state.Pending?)
  {
    hide MarkFailed;
    if |ids| > 0 { CancellingIsLegal(st, planId, failedId, ids[..|ids| - 1]); }
  }

  lemma HooksAreLegal(st: Sched, id: string)
    ensures Legal(st.jobs, ChildSuccess(st, id).jobs) && Legal(st.jobs, ChildFailure(st, id).jobs)
  {
    hide UnblockAll, CancelSiblings, Legal;
    SameIsLegal(st.jobs);
    if id in st.jobs && st.jobs[id].planId in st.handles {
      var p := st.jobs[id].planId;
      ReleasingIsLegal(st.(handles := st.handles[p := MarkCompleted(st.handles[p], id)]), p, st.order);
      CancellingIsLegal(st.(handles := st.handles[p := MarkFailed(st.handles[p], id)]), p, id, st.handles[p].children);
    }
  }

  lemma SameIsLegal(jobs: map<string, Job>)
    ensures Legal(jobs, jobs)
  {
  }

  /** The queue is first in, first out: what is pushed goes behind everything waiting. */
  ghost predicate PushedBehind(before: seq<string>, after: seq<string>, ids: seq<string>, at: seq<nat>) {
    && |after| == |before| + |at| && before <= after
    && (forall j :: 0 <= j < |at| ==> at[j] < |ids| && after[|before| + j] == ids[at[j]])
    && forall j, k :: 0 <= j < k < |at| ==> at[j] < at[k]
  }

  /** Released jobs are pushed in the order the store lists them in. */
  lemma {:induction false} ReleasedInOrder(st: Sched, planId: string, ids: seq<string>) returns (at: seq<nat>)
    ensures PushedBehind(st.queue, UnblockAll(st, planId, ids).queue, ids, at)
  {
    hide DepsSatisfied;
    at := [];
    if |ids| > 0 {
      var n := |ids| - 1;
      at := ReleasedInOrder(st, planId, ids[..n]);
      if Unblockable(UnblockAll(st, planId, ids[..n]).jobs, planId, ids[n]) { at := at + [n]; }
    }
  }

  /** The subtasks a fan-out pushes go in the plan's order, exactly those without dependencies; the
      continuation of a plan that has a subtask is not pushed. */
  lemma {:induction false} FannedOutInOrder(st: Sched, planId: string, ids: seq<string>, deps: seq<seq<string>>,
                                            continuation: string) returns (at: seq<nat>)
    requires |ids| == |deps|
    ensures PushedBehind(st.queue, EnqueueSubtasks(st, planId, ids, deps).queue, ids, at)
    ensures forall i :: 0 <= i < |ids| ==> (i in at <==> deps[i] == [])
    ensures ids != [] ==> FannedOut(st, planId, ids, deps, continuation).queue
                          == EnqueueSubtasks(st, planId, ids, deps).queue
    ensures ids == [] ==> FannedOut(st, planId, ids, deps, continuation).queue == st.queue + [continuation]
  {
    at := [];
    if |ids| > 0 {
      var n := |ids| - 1;
      at := FannedOutInOrder(st, planId, ids[..n], deps[..n], continuation);
      assert deps[..n][..n] == deps[..n] && forall i :: 0 <= i < n ==> deps[..n][i] == deps[i];
      if deps[n] == [] { at := at + [n]; }
    }
  }

  /** A job that has ended keeps its state, one that runs only ends, and one that is held back never runs
      before it is released. */
  lemma JobsEndOnce(a: JobState, b: JobState)
    requires CanTransition(a, b)
    ensures !a.Succeeded? && !a.Failed? && !a.Poison?
    ensures a.Running? ==> b.Succeeded? || b.Failed? || b.Poison?
    ensures a.Blocked? ==> b.Pending? || b.Failed?
    ensures a.Pending? ==> b.Running? || b.Blocked? || b.Failed?
  {
  }

  /** Reporting the same job twice counts it once. */
  lemma MarkingTwiceIsOnce(h: Handle, id: string)
    ensures var once := MarkCompleted(h, id); MarkCompleted(once, id) == once
    ensures var once := MarkFailed(h, id); MarkFailed(once, id) == once
    ensures id in h.children ==> id in MarkCompleted(h, id).completed && id in MarkFailed(h, id).failed
    ensures id !in h.children ==> MarkCompleted(h, id) == h && MarkFailed(h, id) == h
    ensures |MarkCompleted(h, id).completed| <= |h.completed| + 1 && MarkCompleted(h, id).failed == h.failed
    ensures |MarkFailed(h, id).failed| <= |h.failed| + 1 && MarkFailed(h, id).completed == h.completed
  {
    if id in h.children {
      assert id in h.completed + [id] && id in h.failed + [id];
    }
  }

  /** A handle is joined when all children have completed and none has failed, failed when all have reported
      otherwise, and waits before that. */
  lemma JoinsWhenAllHaveReported(h: Handle, id: string)
    requires id in h.children && h.state.Waiting?
    ensures var r := MarkCompleted(h, id);
            && (|r.completed| + |r.failed| < |h.children| ==> r.state.Waiting?)
            && (|r.completed| + |r.failed| >= |h.children| ==>
                  (r.state.Joined? <==> |r.completed| == |h.children| && r.failed == []) && !r.state.Waiting?)
    ensures var r := MarkFailed(h, id);
            && (|r.completed| + |r.failed| < |h.children| ==> r.state.Waiting?)
            && (|r.completed| + |r.failed| >= |h.children| ==> r.state.JoinFailed?)
  {
  }

  // ---------------------------------------------------------------- the mutable platform

  class Platform {
    var jobs: map<string, Job>
    var order: seq<string>
    var queue: seq<string>
    var handles: map<string, Handle>

    function View(): Sched
      reads this
    {
      Sched(jobs, order, queue, handles)
    }

    constructor ()
      ensures View() == Sched(map[], [], [], map[])
    {
      jobs, order, queue, handles := map[], [], [], map[];
    }

    /** Registers `job`; the state machine permits the only transition it makes. */
    method EnqueueJob(job: Job) returns (id: string)
      requires job.state.Pending?
      modifies this
      ensures id == job.jobId && View() == Enqueue(old(View()), job)
      ensures jobs[id].state == job.state || CanTransition(job.state, jobs[id].state)
    {
      jobs := jobs[job.jobId := job];
      order := order + [job.jobId];
      if job.dependsOn != [] {
        jobs := jobs[job.jobId := job.(state := Blocked)];
      } else {
        queue := queue + [job.jobId];
      }
      return job.jobId;
    }

    /** Refuses an invalid plan untouched; otherwise fans it out, with `ids` and `continuation`
        the identifiers drawn for its jobs. */
    method FanOut(planId: string, plan: seq<SubtaskSpec>, ids: seq<string>, continuation: string)
      returns (r: Result<seq<string>, DagError>)
      requires |ids| == |plan|
      modifies this
      ensures r.Ok? <==> ValidPlan(plan)
      ensures r.Err? ==> View() == old(View())
      ensures r.Ok? ==> r.value == ids && View() == FannedOut(old(View()), planId, ids, AsWritten(plan), continuation)
    {
      hide ValidPlan;
      var checked := ValidateDag(plan);
      if checked.Err? {
        return Err(checked.error);
      }
      var childIds := [];
      ghost var deps := AsWritten(plan);
      for i := 0 to |plan|
        invariant childIds == ids[..i]
        invariant View() == EnqueueSubtasks(old(View()), planId, ids[..i], deps[..i])
      {
        var id := EnqueueJob(Job(ids[i], SubtaskJob, planId, Pending, plan[i].dependsOn));
        childIds := childIds + [id];
        assert ids[..i + 1][..i] == ids[..i] && deps[..i + 1][..i] == deps[..i];
      }
      assert ids[..|plan|] == ids && deps[..|plan|] == deps;
      handles := handles[planId := Handle(childIds, [], [], Waiting)];
      var _ := EnqueueJob(Job(continuation, ContinuationJob, planId, Pending, childIds));
      return Ok(childIds);
    }

    /** Runs after a job has succeeded: records it and releases what it was blocking. */
    method HandleChildSuccess(id: string)
      modifies this
      ensures View() == ChildSuccess(old(View()), id)
    {
      if id !in jobs || jobs[id].planId !in handles {
        return;
      }
      var planId := jobs[id].planId;
      handles := handles[planId := MarkCompleted(handles[planId], id)];
      ghost var recorded := View();
      for i := 0 to |order|
        invariant order == old(order) && View() == UnblockAll(recorded, planId, order[..i])
      {
        assert order[..i + 1][..i] == order[..i];
        var sibling := order[i];
        if sibling in jobs && jobs[sibling].planId == planId && jobs[sibling].state.Blocked?
           && jobs[sibling].dependsOn != [] && DepsSatisfied(jobs, jobs[sibling]) {
          jobs := jobs[sibling := jobs[sibling].(state := Pending)];
          queue := queue + [sibling];
        }
      }
      assert order[..|order|] == order;
    }

    /** Runs after a job has failed: records it and cancels its waiting siblings. */
    method HandleChildFailure(id: string)
      modifies this
      ensures View() == ChildFailure(old(View()), id)
    {
      if id !in jobs || jobs[id].planId !in handles {
        return;
      }
      var planId := jobs[id].planId;
      handles := handles[planId := MarkFailed(handles[planId], id)];
      ghost var recorded := View();
      var children := handles[planId].children;
      for i := 0 to |children|
        invariant planId in handles
        invariant View() == CancelSiblings(recorded, planId, id, children[..i])
      {
        assert children[..i + 1][..i] == children[..i];
        var sibling := children[i];
        if sibling != id && sibling in jobs && (jobs[sibling].state.Blocked? || jobs[sibling].state.Pending?) {
          jobs := jobs[sibling := jobs[sibling].(state := Failed)];
          handles := handles[planId := MarkFailed(handles[planId], sibling)];
        }
      }
      assert children[..|children|] == children;
    }
  }
}
