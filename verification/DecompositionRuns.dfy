/** Every run of a fanned-out plan: what each step keeps, where runs stop, and when a plan completes. */
module DecompositionRuns {
  import opened Wrappers
  import opened Digraph
  import opened DagValidator
  import opened Decomposition

  // ---------------------------------------------------------------- runs

  function Without(queue: seq<string>, id: string): (q: seq<string>)
    ensures forall x :: x in q <==> x in queue && x != id
  {
    if |queue| == 0 then []
    else if queue[0] == id then Without(queue[1..], id) else [queue[0]] + Without(queue[1..], id)
  }

  /** A worker takes a queued PENDING job and runs it to success; then the completion hook runs. */
  function Execute(st: Sched, id: string): Option<Sched> {
    if id in st.queue && id in st.jobs && st.jobs[id].state.Pending? then
      Some(ChildSuccess(st.(jobs := st.jobs[id := st.jobs[id].(state := Succeeded)], queue := Without(st.queue, id)),
                        id))
    else None
  }

  /** The jobs of `js` executed in turn, whichever worker takes which: any plan's jobs may interleave. */
  function RunAll(st: Sched, js: seq<string>): Option<Sched> {
    if |js| == 0 then Some(st)
    else
      match RunAll(st, js[..|js| - 1])
      case None => None
      case Some(before) => Execute(before, js[|js| - 1])
  }

  /** The entries of `js` that are jobs of the plan. */
  function PlanPart(js: seq<string>, plan: Graph): seq<string> {
    if |js| == 0 then []
    else PlanPart(js[..|js| - 1], plan) + (if js[|js| - 1] in plan then [js[|js| - 1]] else [])
  }

  // ---------------------------------------------------------------- invariant

  ghost predicate AllDone(deps: seq<string>, done: seq<string>) {
    forall d :: d in deps ==> d in done
  }

  ghost predicate HandleInv(h: Handle, children: seq<string>, done: seq<string>) {
    && h.children == children && h.failed == [] && Distinct(h.completed)
    && (forall c :: c in h.completed <==> c in done && c in children)
    && h.state == (if children != [] && AllDone(children, done) then Joined else Waiting)
  }

  /** One job of the plan: its state says whether it ran, may run, or waits for a dependency. */
  ghost predicate JobInv(st: Sched, planId: string, deps: seq<string>, done: seq<string>, id: string) {
    && id in st.jobs && st.jobs[id].planId == planId && st.jobs[id].dependsOn == deps
    && id in st.order
    && (st.jobs[id].state.Pending? || st.jobs[id].state.Blocked? || st.jobs[id].state.Succeeded?)
    && (st.jobs[id].state.Succeeded? <==> id in done)
    && (st.jobs[id].state.Pending? <==> id in st.queue)
    && (st.jobs[id].state.Blocked? ==> deps != [] && !AllDone(deps, done))
    && (!st.jobs[id].state.Blocked? ==> AllDone(deps, done))
  }

  /** A plan whose jobs and dependency lists are `plan`, of which `done` have run, in that order. */
  ghost predicate PlanInv(st: Sched, planId: string, plan: Graph, children: seq<string>, done: seq<string>) {
    && planId in st.handles && HandleInv(st.handles[planId], children, done)
    && (forall id :: id in st.jobs && st.jobs[id].planId == planId ==> id in plan)
    && (forall id :: id in plan ==> JobInv(st, planId, plan[id], done, id))
    && FinishOrder(plan, done) && (forall id :: id in done ==> id in plan)
    && (forall id, d :: Edge(plan, id, d) && d !in plan ==> d !in st.jobs)
  }

  // ---------------------------------------------------------------- one step

  lemma {:induction false} UnblockAllEffect(st: Sched, planId: string, ids: seq<string>)
    ensures var r := UnblockAll(st, planId, ids);
            && r.order == st.order && r.handles == st.handles && r.jobs.Keys == st.jobs.Keys
            && (forall id :: id in st.jobs ==>
                  r.jobs[id] == (if id in ids && Unblockable(st.jobs, planId, id) then st.jobs[id].(state := Pending)
                                 else st.jobs[id]))
            && (forall id :: id in r.queue <==> id in st.queue || (id in ids && Unblockable(st.jobs, planId, id)))
  {
    if |ids| > 0 {
      var init, last := ids[..|ids| - 1], ids[|ids| - 1];
      UnblockAllEffect(st, planId, init);
      assert ids == init + [last];
      var mid := UnblockAll(st, planId, init);
      forall id | id in st.jobs ensures DepsSatisfied(mid.jobs, st.jobs[id]) <==> DepsSatisfied(st.jobs, st.jobs[id]) {
        SameSuccesses(st.jobs, mid.jobs, st.jobs[id]);
      }
    }
  }

  lemma SameSuccesses(a: map<string, Job>, b: map<string, Job>, job: Job)
    requires a.Keys == b.Keys && forall d :: d in a ==> (a[d].state.Succeeded? <==> b[d].state.Succeeded?)
    ensures DepsSatisfied(a, job) <==> DepsSatisfied(b, job)
  {
  }

  lemma {:induction false} DistinctSet(s: seq<string>)
    requires Distinct(s)
    ensures |set x | x in s| == |s|
  {
    if |s| > 0 {
      var init := s[..|s| - 1];
      DistinctSet(init);
      assert (set x | x in s) == (set x | x in init) + {s[|s| - 1]};
    }
  }

  /** With distinct children, "as many completed as children" means all of them. */
  lemma CompletedCount(completed: seq<string>, children: seq<string>)
    requires Distinct(completed) && Distinct(children) && forall c :: c in completed ==> c in children
    ensures |completed| <= |children|
    ensures |completed| == |children| <==> forall c :: c in children ==> c in completed
  {
    DistinctSet(completed);
    DistinctSet(children);
    var a, b := set x | x in completed, set x | x in children;
    assert a <= b && |b - a| == |b| - |a|;
    if |completed| == |children| {
      assert b - a == {};
      forall c | c in children ensures c in completed { assert c in b; }
    }
    if forall c :: c in children ==> c in completed {
      assert a == b;
    }
  }

  lemma MarkingKeepsHandle(h: Handle, children: seq<string>, done: seq<string>, id: string)
    requires HandleInv(h, children, done) && Distinct(children) && id !in done
    ensures HandleInv(MarkCompleted(h, id), children, done + [id])
  {
    if id in children {
      var more := h.completed + [id];
      CompletedCount(more, children);
      assert forall c :: c in done + [id] <==> c in done || c == id;
    } else {
      assert forall c :: c in children ==> (c in done + [id] <==> c in done);
    }
  }

  /** For a job of the plan, the scheduler's test of the store agrees with the list of jobs done. */
  lemma SatisfiedIffDone(st: Sched, planId: string, plan: Graph, children: seq<string>, done: seq<string>, id: string,
                         jobs: map<string, Job>, now: seq<string>)
    requires PlanInv(st, planId, plan, children, done) && id in plan
    requires jobs.Keys == st.jobs.Keys
    requires forall d :: d in plan ==> (jobs[d].state.Succeeded? <==> d in now)
    requires forall d :: d in now ==> d in plan
    ensures DepsSatisfied(jobs, st.jobs[id]) <==> AllDone(plan[id], now)
  {
    hide HandleInv, FinishOrder;
    assert JobInv(st, planId, plan[id], done, id);
    forall d | d in plan[id] ensures (d in jobs && jobs[d].state.Succeeded?) <==> d in now {
      assert Edge(plan, id, d);
      if d in plan { assert JobInv(st, planId, plan[d], done, d); }
    }
  }

  /** The store just before the completion hook of job `id`. */
  function Finished(st: Sched, id: string): Sched
    requires id in st.jobs
  {
    st.(jobs := st.jobs[id := st.jobs[id].(state := Succeeded)], queue := Without(st.queue, id))
  }

  /** Which plan jobs the hook of `id` releases. */
  lemma ReleasedByPlanJob(st: Sched, planId: string, plan: Graph, children: seq<string>, done: seq<string>,
                          id: string, x: string)
    requires PlanInv(st, planId, plan, children, done) && id in plan && x in plan
    requires st.jobs[id].state.Pending?
    ensures Unblockable(Finished(st, id).jobs, planId, x) <==>
              st.jobs[x].state.Blocked? && AllDone(plan[x], done + [id])
  {
    hide HandleInv, FinishOrder, AllDone, DepsSatisfied;
    var jobs := Finished(st, id).jobs;
    assert JobInv(st, planId, plan[id], done, id) && JobInv(st, planId, plan[x], done, x);
    forall d | d in plan ensures jobs[d].state.Succeeded? <==> d in done + [id] {
      assert JobInv(st, planId, plan[d], done, d);
    }
    SatisfiedIffDone(st, planId, plan, children, done, x, jobs, done + [id]);
    SameDependencies(jobs, st.jobs[x], jobs[x]);
  }

  lemma SameDependencies(jobs: map<string, Job>, a: Job, b: Job)
    requires a.dependsOn == b.dependsOn
    ensures DepsSatisfied(jobs, a) <==> DepsSatisfied(jobs, b)
  {
  }

  lemma DoneGrows(deps: seq<string>, done: seq<string>, id: string)
    ensures AllDone(deps, done) ==> AllDone(deps, done + [id])
  {
  }

  /** One job of the plan, before and after a job of the same plan has run. */
  lemma StepKeepsJob(st: Sched, planId: string, plan: Graph, children: seq<string>, done: seq<string>, id: string,
                     x: string)
    requires PlanInv(st, planId, plan, children, done) && id in plan && x in plan
    requires Execute(st, id).Some?
    ensures JobInv(Execute(st, id).value, planId, plan[x], done + [id], x)
  {
    hide HandleInv, FinishOrder, AllDone, DepsSatisfied, MarkCompleted, Unblockable;
    var mid := Finished(st, id);
    assert JobInv(st, planId, plan[id], done, id) && JobInv(st, planId, plan[x], done, x);
    ReleasedByPlanJob(st, planId, plan, children, done, id, x);
    var marked := mid.(handles := mid.handles[planId := MarkCompleted(mid.handles[planId], id)]);
    UnblockAllEffect(marked, planId, marked.order);
    assert Execute(st, id).value == UnblockAll(marked, planId, marked.order);
    DoneGrows(plan[x], done, id);
  }

  /** Running a job of the plan keeps the invariant, with that job appended. */
  lemma StepInPlan(st: Sched, planId: string, plan: Graph, children: seq<string>, done: seq<string>, id: string)
    requires PlanInv(st, planId, plan, children, done) && Distinct(children) && id in plan
    requires Execute(st, id).Some?
    ensures PlanInv(Execute(st, id).value, planId, plan, children, done + [id])
  {
    hide HandleInv, FinishOrder, AllDone, DepsSatisfied, MarkCompleted, Unblockable, JobInv, Distinct;
    forall x | x in plan ensures JobInv(Execute(st, id).value, planId, plan[x], done + [id], x) {
      StepKeepsJob(st, planId, plan, children, done, id, x);
    }
    RunnableFacts(st, planId, plan, children, done, id);
    var mid := Finished(st, id);
    var marked := mid.(handles := mid.handles[planId := MarkCompleted(mid.handles[planId], id)]);
    UnblockAllEffect(marked, planId, marked.order);
    assert Execute(st, id).value == UnblockAll(marked, planId, marked.order);
    MarkingKeepsHandle(st.handles[planId], children, done, id);
    FinishOrderSnoc(plan, done, id);
  }

  lemma RunnableFacts(st: Sched, planId: string, plan: Graph, children: seq<string>, done: seq<string>, id: string)
    requires PlanInv(st, planId, plan, children, done) && id in plan
    requires Execute(st, id).Some?
    ensures id !in done && st.jobs[id].planId == planId
    ensures forall b :: Edge(plan, id, b) ==> b in done
  {
    hide HandleInv, FinishOrder, ChildSuccess;
    assert JobInv(st, planId, plan[id], done, id);
  }

  /** What running a job of another plan does to the store. */
  lemma OutsideEffect(st: Sched, planId: string, id: string)
    requires Execute(st, id).Some? && st.jobs[id].planId != planId
    ensures var r := Execute(st, id).value;
            && r.order == st.order && r.jobs.Keys == st.jobs.Keys
            && (forall x :: x in st.jobs && st.jobs[x].planId == planId ==> r.jobs[x] == st.jobs[x])
            && (forall x :: x in st.jobs ==> r.jobs[x].planId == st.jobs[x].planId)
            && (forall x :: x in st.jobs && st.jobs[x].planId == planId ==> (x in r.queue <==> x in st.queue))
            && (planId in st.handles ==> planId in r.handles && r.handles[planId] == st.handles[planId])
  {
    hide MarkCompleted, DepsSatisfied;
    var mid := Finished(st, id);
    var other := st.jobs[id].planId;
    if other in mid.handles {
      var marked := mid.(handles := mid.handles[other := MarkCompleted(mid.handles[other], id)]);
      UnblockAllEffect(marked, other, marked.order);
      assert Execute(st, id).value == UnblockAll(marked, other, marked.order);
    }
  }

  /** Running a job of another plan leaves this plan alone. */
  lemma StepOutsidePlan(st: Sched, planId: string, plan: Graph, children: seq<string>, done: seq<string>, id: string)
    requires PlanInv(st, planId, plan, children, done) && id !in plan
    requires Execute(st, id).Some?
    ensures PlanInv(Execute(st, id).value, planId, plan, children, done)
  {
    hide HandleInv, FinishOrder, AllDone, ChildSuccess;
    assert st.jobs[id].planId != planId;
    OutsideEffect(st, planId, id);
    forall x | x in plan ensures JobInv(Execute(st, id).value, planId, plan[x], done, x) {
      assert JobInv(st, planId, plan[x], done, x);
    }
  }

  /** What holds of a plan after any run, its jobs interleaved with other plans' jobs. */
  lemma {:induction false} RunsKeepInvariant(st0: Sched, planId: string, plan: Graph, children: seq<string>,
                                             js: seq<string>)
    requires PlanInv(st0, planId, plan, children, []) && Distinct(children)
    requires RunAll(st0, js).Some?
    ensures PlanInv(RunAll(st0, js).value, planId, plan, children, PlanPart(js, plan))
  {
    hide PlanInv, Distinct, Execute;
    if |js| > 0 {
      var init, id := js[..|js| - 1], js[|js| - 1];
      RunsKeepInvariant(st0, planId, plan, children, init);
      var before := RunAll(st0, init).value;
      if id in plan {
        StepInPlan(before, planId, plan, children, PlanPart(init, plan), id);
      } else {
        StepOutsidePlan(before, planId, plan, children, PlanPart(init, plan), id);
        assert PlanPart(init, plan) + [] == PlanPart(init, plan);
      }
    }
  }

  // ---------------------------------------------------------------- where runs stop

  /** No job of the plan is queued: nothing of it can run any more. */
  ghost predicate Idle(st: Sched, plan: Graph) {
    forall id :: id in plan ==> id !in st.queue
  }

  /** The scheduler never withholds a released job: whatever is queued can be executed. */
  lemma QueuedCanRun(st: Sched, planId: string, plan: Graph, children: seq<string>, done: seq<string>, id: string)
    requires PlanInv(st, planId, plan, children, done) && id in plan && id in st.queue
    ensures Execute(st, id).Some? && id !in done
  {
    hide HandleInv, FinishOrder, AllDone, ChildSuccess;
    assert JobInv(st, planId, plan[id], done, id);
  }

  /** No run executes a job of the plan twice. */
  lemma RunsAreShort(st: Sched, planId: string, plan: Graph, children: seq<string>, done: seq<string>)
    requires PlanInv(st, planId, plan, children, done)
    ensures Distinct(done) && |done| <= |plan|
  {
    DistinctSet(done);
    var ran := set x | x in done;
    assert ran <= plan.Keys && |plan.Keys| == |ran| + |plan.Keys - ran|;
    assert |plan.Keys| == |plan|;
  }

  /** When a plan is idle, a job that has not run waits for a dependency that has not run. */
  lemma IdleMeansWaiting(st: Sched, planId: string, plan: Graph, children: seq<string>, done: seq<string>, id: string)
    requires PlanInv(st, planId, plan, children, done) && Idle(st, plan) && id in plan
    ensures id in done <==> AllDone(plan[id], done)
  {
    hide HandleInv;
    assert JobInv(st, planId, plan[id], done, id);
  }

  /** With dependencies that are jobs of the plan, and an acyclic graph, idle means finished. */
  lemma {:induction false} RankedJobRuns(st: Sched, planId: string, plan: Graph, children: seq<string>,
                                         done: seq<string>, rank: map<string, nat>, id: string)
    requires PlanInv(st, planId, plan, children, done) && Idle(st, plan)
    requires Closed(plan) && Ranked(plan, rank) && id in plan
    ensures id in done
    decreases rank[id]
  {
    hide HandleInv, PlanInv, Idle;
    IdleMeansWaiting(st, planId, plan, children, done, id);
    forall d | d in plan[id] ensures d in done {
      assert Edge(plan, id, d);
      RankedJobRuns(st, planId, plan, children, done, rank, d);
    }
  }

  lemma {:induction false} RunAllConcat(st: Sched, a: seq<string>, b: seq<string>)
    requires RunAll(st, a).Some?
    ensures RunAll(st, a + b) == RunAll(RunAll(st, a).value, b)
  {
    hide Execute;
    if |b| == 0 {
      assert a + b == a;
    } else {
      RunAllConcat(st, a, b[..|b| - 1]);
      assert (a + b)[..|a + b| - 1] == a + b[..|b| - 1];
    }
  }

  /** Every run can be carried on to rest, in no more steps than the plan has jobs left. */
  lemma {:induction false} RunsExtendToIdle(st: Sched, planId: string, plan: Graph, children: seq<string>,
                                            done: seq<string>) returns (js: seq<string>)
    requires PlanInv(st, planId, plan, children, done) && Distinct(children)
    ensures RunAll(st, js).Some? && Idle(RunAll(st, js).value, plan)
    ensures |done| + |js| <= |plan| && forall id :: id in js ==> id in plan
    decreases |plan| - |done|
  {
    hide PlanInv, Execute, Distinct;
    RunsAreShort(st, planId, plan, children, done);
    if Idle(st, plan) {
      js := [];
    } else {
      var id :| id in plan && id in st.queue;
      QueuedCanRun(st, planId, plan, children, done, id);
      StepInPlan(st, planId, plan, children, done, id);
      var next := Execute(st, id).value;
      RunsAreShort(next, planId, plan, children, done + [id]);
      var rest := RunsExtendToIdle(next, planId, plan, children, done + [id]);
      js := [id] + rest;
      assert [id][..0] == [] && RunAll(st, [id]) == Execute(st, id);
      RunAllConcat(st, [id], rest);
    }
  }

  // ---------------------------------------------------------------- the store after fan-out

  /** The identifiers drawn for the jobs are new, and the plan has none in the store yet. */
  ghost predicate FreshNames(st: Sched, planId: string, ids: seq<string>, continuation: string) {
    && Distinct(ids) && continuation !in ids && continuation !in st.jobs
    && (forall id :: id in ids ==> id !in st.jobs)
    && (forall id :: id in st.queue ==> id in st.jobs)
    && (forall id :: id in st.jobs ==> st.jobs[id].planId != planId)
  }

  /** The job-level dependency graph that a fan-out with these lists sets up. */
  function JobGraph(ids: seq<string>, deps: seq<seq<string>>, continuation: string): Graph
    requires |ids| == |deps|
  {
    SubtaskGraph(ids, deps)[continuation := ids]
  }

  function SubtaskGraph(ids: seq<string>, deps: seq<seq<string>>): Graph
    requires |ids| == |deps|
  {
    if |ids| == 0 then map[]
    else SubtaskGraph(ids[..|ids| - 1], deps[..|ids| - 1])[ids[|ids| - 1] := deps[|ids| - 1]]
  }

  lemma {:induction false} SubtaskGraphAt(ids: seq<string>, deps: seq<seq<string>>)
    requires |ids| == |deps| && Distinct(ids)
    ensures forall id :: id in SubtaskGraph(ids, deps) <==> id in ids
    ensures forall i :: 0 <= i < |ids| ==> SubtaskGraph(ids, deps)[ids[i]] == deps[i]
  {
    if |ids| > 0 {
      var n := |ids| - 1;
      SubtaskGraphAt(ids[..n], deps[..n]);
      assert ids == ids[..n] + [ids[n]];
      forall i | 0 <= i < |ids| ensures SubtaskGraph(ids, deps)[ids[i]] == deps[i] {
        if i < n { assert ids[..n][i] == ids[i] && deps[..n][i] == deps[i]; }
      }
    }
  }

  function InitialJob(planId: string, id: string, deps: seq<string>): Job {
    Job(id, SubtaskJob, planId, if deps == [] then Pending else Blocked, deps)
  }

  ghost predicate JobsAdded(st: Sched, r: Sched, planId: string, ids: seq<string>, deps: seq<seq<string>>)
    requires |ids| == |deps|
  {
    && (forall id :: id in r.jobs <==> id in st.jobs || id in ids)
    && (forall id :: id in st.jobs ==> r.jobs[id] == st.jobs[id])
    && (forall i :: 0 <= i < |ids| ==> ids[i] in r.jobs && r.jobs[ids[i]] == InitialJob(planId, ids[i], deps[i]))
  }

  ghost predicate QueueExtended(st: Sched, r: Sched, ids: seq<string>, deps: seq<seq<string>>)
    requires |ids| == |deps|
  {
    && (forall id :: id in st.queue ==> id in r.queue)
    && (forall id :: id in r.queue ==> id in st.queue || id in ids)
    && (forall i :: 0 <= i < |ids| && ids[i] !in st.queue ==> (ids[i] in r.queue <==> deps[i] == []))
  }

  lemma {:induction false} JobsAreAdded(st: Sched, planId: string, ids: seq<string>, deps: seq<seq<string>>)
    requires |ids| == |deps| && Distinct(ids) && forall id :: id in ids ==> id !in st.jobs
    ensures JobsAdded(st, EnqueueSubtasks(st, planId, ids, deps), planId, ids, deps)
  {
    if |ids| > 0 {
      var n := |ids| - 1;
      JobsAreAdded(st, planId, ids[..n], deps[..n]);
      assert ids == ids[..n] + [ids[n]];
      var before, after := EnqueueSubtasks(st, planId, ids[..n], deps[..n]), EnqueueSubtasks(st, planId, ids, deps);
      assert after.jobs == before.jobs[ids[n] := InitialJob(planId, ids[n], deps[n])];
      forall i | 0 <= i < |ids| ensures after.jobs[ids[i]] == InitialJob(planId, ids[i], deps[i]) {
        if i < n { assert ids[..n][i] == ids[i] && deps[..n][i] == deps[i]; }
      }
    }
  }

  lemma {:induction false} QueueIsExtended(st: Sched, planId: string, ids: seq<string>, deps: seq<seq<string>>)
    requires |ids| == |deps| && Distinct(ids)
    ensures var r := EnqueueSubtasks(st, planId, ids, deps);
            QueueExtended(st, r, ids, deps) && r.handles == st.handles && r.order == st.order + ids
  {
    if |ids| > 0 {
      var n := |ids| - 1;
      QueueIsExtended(st, planId, ids[..n], deps[..n]);
      assert ids == ids[..n] + [ids[n]];
      var before, after := EnqueueSubtasks(st, planId, ids[..n], deps[..n]), EnqueueSubtasks(st, planId, ids, deps);
      assert after.queue == before.queue + (if deps[n] == [] then [ids[n]] else []);
      forall i | 0 <= i < |ids| && ids[i] !in st.queue ensures ids[i] in after.queue <==> deps[i] == [] {
        if i < n { assert ids[..n][i] == ids[i] && deps[..n][i] == deps[i]; }
      }
    }
  }

  /** Fan-out establishes the invariant, provided no dependency names a job already in the store. */
  lemma FanOutEstablishes(st: Sched, planId: string, ids: seq<string>, deps: seq<seq<string>>, continuation: string)
    requires |ids| == |deps| && FreshNames(st, planId, ids, continuation)
    requires forall i, d :: 0 <= i < |ids| && d in deps[i] ==> d !in st.jobs
    ensures PlanInv(FannedOut(st, planId, ids, deps, continuation), planId, JobGraph(ids, deps, continuation), ids, [])
  {
    hide FannedOut, HandleInv, JobInv, FreshNames, JobGraph, Distinct;
    var plan := JobGraph(ids, deps, continuation);
    var r := FannedOut(st, planId, ids, deps, continuation);
    JobGraphAt(ids, deps, continuation, st, planId);
    StoreAfterFanOut(st, planId, ids, deps, continuation);
    forall x | x in plan ensures JobInv(r, planId, plan[x], [], x) {
      if x == continuation {
        ContinuationStarts(st, planId, ids, deps, continuation);
      } else {
        var i :| 0 <= i < |ids| && ids[i] == x;
        SubtaskStarts(st, planId, ids, deps, continuation, i);
      }
    }
    forall x, d | Edge(plan, x, d) && d !in plan ensures d !in r.jobs {
      if x != continuation {
        var i :| 0 <= i < |ids| && ids[i] == x;
        assert d in deps[i];
      }
    }
    NewHandle(ids);
  }

  /** Right after the fan-out of a valid non-empty plan exactly the subtasks without dependencies are
      queued, there is one, and the continuation is blocked. */
  lemma FreeSubtasksArePushed(st: Sched, planId: string, plan: seq<SubtaskSpec>, ids: seq<string>, continuation: string)
    requires |ids| == |plan| && ValidPlan(plan) && plan != []
    requires FreshNames(st, planId, ids, continuation)
    ensures var r := FannedOut(st, planId, ids, AsWritten(plan), continuation);
            && (forall i :: 0 <= i < |plan| ==> (ids[i] in r.queue <==> plan[i].dependsOn == []))
            && (exists i :: 0 <= i < |plan| && plan[i].dependsOn == [] && ids[i] in r.queue)
            && continuation !in r.queue && continuation in r.jobs && r.jobs[continuation].state.Blocked?
  {
    hide FannedOut, ValidPlan, JobInv, FreshNames;
    var deps := AsWritten(plan);
    forall i | 0 <= i < |plan|
      ensures ids[i] in FannedOut(st, planId, ids, deps, continuation).queue <==> plan[i].dependsOn == [] {
      SubtaskStarts(st, planId, ids, deps, continuation, i);
      StartIsQueued(FannedOut(st, planId, ids, deps, continuation), planId, deps[i], ids[i]);
    }
    ContinuationStarts(st, planId, ids, deps, continuation);
    StartIsQueued(FannedOut(st, planId, ids, deps, continuation), planId, ids, continuation);
    var i := SomeSubtaskIsFree(plan);
  }

  lemma StartIsQueued(st: Sched, planId: string, deps: seq<string>, id: string)
    requires JobInv(st, planId, deps, [], id)
    ensures id in st.jobs && (id in st.queue <==> deps == []) && (deps != [] ==> st.jobs[id].state.Blocked?)
  {
    FirstIsNotDone(deps);
  }

  /** An acyclic plan has a subtask that depends on nothing. */
  lemma SomeSubtaskIsFree(plan: seq<SubtaskSpec>) returns (i: nat)
    requires ValidPlan(plan) && plan != []
    ensures i < |plan| && plan[i].dependsOn == []
  {
    hide Acyclic, GoodBefore;
    var g := Adjacency(plan);
    AdjacencyKeys(plan);
    GoodPlanIsClosed(plan);
    var rank := TightRank(g);
    i := 0;
    AdjacencyAt(plan, 0);
    while plan[i].dependsOn != []
      invariant i < |plan| && plan[i].id in g && plan[i].id in rank
      decreases rank[plan[i].id]
    {
      var d := plan[i].dependsOn[0];
      AdjacencyAt(plan, i);
      assert Edge(g, plan[i].id, d);
      var j :| 0 <= j < |plan| && plan[j].id == d;
      i := j;
    }
  }

  lemma JobGraphAt(ids: seq<string>, deps: seq<seq<string>>, continuation: string, st: Sched, planId: string)
    requires |ids| == |deps| && FreshNames(st, planId, ids, continuation)
    ensures var plan := JobGraph(ids, deps, continuation);
            && (forall id :: id in plan <==> id in ids || id == continuation)
            && (forall i :: 0 <= i < |ids| ==> plan[ids[i]] == deps[i]) && plan[continuation] == ids
  {
    SubtaskGraphAt(ids, deps);
  }

  lemma StoreAfterFanOut(st: Sched, planId: string, ids: seq<string>, deps: seq<seq<string>>, continuation: string)
    requires |ids| == |deps| && FreshNames(st, planId, ids, continuation)
    ensures var r := FannedOut(st, planId, ids, deps, continuation);
            && planId in r.handles && r.handles[planId] == Handle(ids, [], [], Waiting)
            && (forall id :: id in r.jobs <==> id in st.jobs || id in ids || id == continuation)
            && (forall id :: id in st.jobs ==> r.jobs[id] == st.jobs[id])
            && (forall id :: id in st.jobs ==> st.jobs[id].planId != planId)
            && (forall id :: id in st.queue ==> id in st.jobs)
  {
    JobsAreAdded(st, planId, ids, deps);
    QueueIsExtended(st, planId, ids, deps);
  }

  lemma SubtaskStarts(st: Sched, planId: string, ids: seq<string>, deps: seq<seq<string>>, continuation: string, i: nat)
    requires |ids| == |deps| && FreshNames(st, planId, ids, continuation) && i < |ids|
    ensures JobInv(FannedOut(st, planId, ids, deps, continuation), planId, deps[i], [], ids[i])
  {
    hide AllDone;
    JobsAreAdded(st, planId, ids, deps);
    QueueIsExtended(st, planId, ids, deps);
    FirstIsNotDone(deps[i]);
    assert ids[i] !in st.queue;
  }

  lemma ContinuationStarts(st: Sched, planId: string, ids: seq<string>, deps: seq<seq<string>>, continuation: string)
    requires |ids| == |deps| && FreshNames(st, planId, ids, continuation)
    ensures JobInv(FannedOut(st, planId, ids, deps, continuation), planId, ids, [], continuation)
  {
    hide AllDone;
    JobsAreAdded(st, planId, ids, deps);
    QueueIsExtended(st, planId, ids, deps);
    FirstIsNotDone(ids);
    assert continuation !in st.queue;
  }

  lemma FirstIsNotDone(deps: seq<string>)
    ensures AllDone(deps, []) <==> deps == []
  {
    if deps != [] { assert deps[0] in deps; }
  }

  lemma NewHandle(ids: seq<string>)
    ensures HandleInv(Handle(ids, [], [], Waiting), ids, [])
  {
    FirstIsNotDone(ids);
  }

  // ---------------------------------------------------------------- the plan as the program writes it

  /** Subtask ids are not job ids: the job ids are drawn as fresh UUIDs. */
  ghost predicate SeparateNames(st: Sched, plan: seq<SubtaskSpec>, ids: seq<string>, continuation: string) {
    forall t :: t in Ids(plan) ==> t !in st.jobs && t !in ids && t != continuation
  }

  /** No subtask of the plan depends on another. */
  ghost predicate NoDependencies(plan: seq<SubtaskSpec>) {
    forall i :: 0 <= i < |plan| ==> plan[i].dependsOn == []
  }

  lemma WrittenDepsAreStrangers(st: Sched, plan: seq<SubtaskSpec>, ids: seq<string>, continuation: string,
                                deps: seq<seq<string>>)
    requires |ids| == |plan| && GoodBefore(plan, |plan|, 0) && SeparateNames(st, plan, ids, continuation)
             && deps == AsWritten(plan)
    ensures forall i, d :: 0 <= i < |deps| && d in deps[i] ==> d !in st.jobs && d !in ids && d != continuation
  {
    forall i, d | 0 <= i < |deps| && d in deps[i] ensures d !in st.jobs && d !in ids && d != continuation {
      WrittenDepIsStranger(st, plan, ids, continuation, i, d);
    }
  }

  lemma WrittenDepIsStranger(st: Sched, plan: seq<SubtaskSpec>, ids: seq<string>, continuation: string, i: nat,
                             d: string)
    requires GoodBefore(plan, |plan|, 0) && SeparateNames(st, plan, ids, continuation)
    requires i < |plan| && d in AsWritten(plan)[i]
    ensures d !in st.jobs && d !in ids && d != continuation
  {
    var e :| 0 <= e < |plan[i].dependsOn| && plan[i].dependsOn[e] == d;
    assert GoodDependency(plan, i, e);
  }

  /** Fan-out writes subtask ids where the scheduler looks up job ids. So when everything that
      can run has run, exactly the subtasks without dependencies have; and the continuation
      has run, and the join handle is complete, if and only if the plan has no dependencies. */
  lemma WrittenPlanCompletesIff(st0: Sched, planId: string, plan: seq<SubtaskSpec>, ids: seq<string>,
                                continuation: string, js: seq<string>)
    requires |ids| == |plan| && ValidPlan(plan)
    requires FreshNames(st0, planId, ids, continuation) && SeparateNames(st0, plan, ids, continuation)
    requires RunAll(FannedOut(st0, planId, ids, AsWritten(plan), continuation), js).Some?
    requires Idle(RunAll(FannedOut(st0, planId, ids, AsWritten(plan), continuation), js).value,
                  JobGraph(ids, AsWritten(plan), continuation))
    ensures var st := RunAll(FannedOut(st0, planId, ids, AsWritten(plan), continuation), js).value;
            var ran := PlanPart(js, JobGraph(ids, AsWritten(plan), continuation));
            && (forall i :: 0 <= i < |plan| ==> (ids[i] in ran <==> plan[i].dependsOn == []))
            && (continuation in ran <==> NoDependencies(plan))
            && planId in st.handles
            && (st.handles[planId].state.Joined? <==> plan != [] && NoDependencies(plan))
  {
    hide FannedOut, PlanInv, Idle, ValidPlan, RunAll, JobGraph, HandleInv;
    var deps := AsWritten(plan);
    var start := FannedOut(st0, planId, ids, deps, continuation);
    var graph := JobGraph(ids, deps, continuation);
    var ran := PlanPart(js, graph);
    ValidIsGood(plan);
    WrittenDepsAreStrangers(st0, plan, ids, continuation, deps);
    JobGraphAt(ids, deps, continuation, st0, planId);
    FanOutEstablishes(st0, planId, ids, deps, continuation);
    RunsKeepInvariant(start, planId, graph, ids, js);
    var st := RunAll(start, js).value;
    DoneIsInPlan(st, planId, graph, ids, ran);
    forall i | 0 <= i < |plan| ensures ids[i] in ran <==> plan[i].dependsOn == [] {
      IdleMeansWaiting(st, planId, graph, ids, ran, ids[i]);
      if deps[i] != [] {
        assert deps[i][0] in deps[i] && deps[i][0] !in graph;
      }
    }
    IdleMeansWaiting(st, planId, graph, ids, ran, continuation);
    assert AllDone(ids, ran) <==> NoDependencies(plan);
  }

  lemma ValidIsGood(plan: seq<SubtaskSpec>)
    requires ValidPlan(plan)
    ensures UniqueIds(plan) && GoodBefore(plan, |plan|, 0) && Acyclic(Adjacency(plan))
  {
  }

  lemma DoneIsInPlan(st: Sched, planId: string, plan: Graph, children: seq<string>, done: seq<string>)
    requires PlanInv(st, planId, plan, children, done)
    ensures forall id :: id in done ==> id in plan
    ensures planId in st.handles
    ensures st.handles[planId].state.Joined? <==> children != [] && AllDone(children, done)
    ensures FinishOrder(plan, done)
  {
  }

  // ---------------------------------------------------------------- the plan as documented

  /** The job that runs subtask `t`. */
  function JobOf(plan: seq<SubtaskSpec>, ids: seq<string>, t: string): string
    requires |ids| == |plan|
  {
    if |plan| == 0 then t
    else if plan[0].id == t then ids[0] else JobOf(plan[1..], ids[1..], t)
  }

  function ResolvedList(plan: seq<SubtaskSpec>, ids: seq<string>, deps: seq<string>): seq<string>
    requires |ids| == |plan|
  {
    seq(|deps|, k requires 0 <= k < |deps| => JobOf(plan, ids, deps[k]))
  }

  /** The dependency lists with every subtask id replaced by the id of its job. */
  function Resolved(plan: seq<SubtaskSpec>, ids: seq<string>): (deps: seq<seq<string>>)
    requires |ids| == |plan|
    ensures |deps| == |plan|
  {
    seq(|plan|, i requires 0 <= i < |plan| => ResolvedList(plan, ids, plan[i].dependsOn))
  }

  lemma {:induction false} JobOfAt(plan: seq<SubtaskSpec>, ids: seq<string>, i: nat)
    requires |ids| == |plan| && UniqueIds(plan) && i < |plan|
    ensures JobOf(plan, ids, plan[i].id) == ids[i]
  {
    if i > 0 {
      JobOfAt(plan[1..], ids[1..], i - 1);
    }
  }

  /** Each resolved dependency is the job of a subtask the dependent names. */
  lemma ResolvedEdge(plan: seq<SubtaskSpec>, ids: seq<string>, i: nat, d: string) returns (j: nat)
    requires |ids| == |plan| && UniqueIds(plan) && GoodBefore(plan, |plan|, 0)
    requires i < |plan| && d in Resolved(plan, ids)[i]
    ensures j < |plan| && ids[j] == d && plan[j].id in plan[i].dependsOn
  {
    var k :| 0 <= k < |plan[i].dependsOn| && Resolved(plan, ids)[i][k] == d;
    assert GoodDependency(plan, i, k);
    var s :| s in plan && s.id == plan[i].dependsOn[k];
    j :| 0 <= j < |plan| && plan[j] == s;
    JobOfAt(plan, ids, j);
  }

  /** A rank of the subtask graph, carried over to the jobs, with the continuation above all. */
  lemma ResolvedIsRanked(st: Sched, planId: string, plan: seq<SubtaskSpec>, ids: seq<string>, continuation: string)
    returns (rank: map<string, nat>)
    requires |ids| == |plan| && ValidPlan(plan) && FreshNames(st, planId, ids, continuation)
    ensures Closed(JobGraph(ids, Resolved(plan, ids), continuation))
    ensures Ranked(JobGraph(ids, Resolved(plan, ids), continuation), rank)
  {
    hide JobGraph, Acyclic, Resolved, GoodBefore;
    var g := JobGraph(ids, Resolved(plan, ids), continuation);
    JobGraphAt(ids, Resolved(plan, ids), continuation, st, planId);
    var sub := TightRank(Adjacency(plan));
    GoodPlanIsClosed(plan);
    PlanIsRanked(plan, sub);
    var top := |Adjacency(plan)|;
    rank := map id | id in g :: if id in ids then SubRank(plan, sub, Position(ids, id)) else top;
    forall a, b | Edge(g, a, b) ensures b in g && rank[b] < rank[a] {
      if a == continuation {
        assert b in ids;
        PositionIs(ids, Position(ids, b));
        RankBelowTop(plan, sub, Position(ids, b));
      } else {
        var i :| 0 <= i < |ids| && ids[i] == a;
        PositionIs(ids, i);
        var j := ResolvedEdge(plan, ids, i, b);
        PositionIs(ids, j);
        assert plan[i] in plan && plan[j] in plan;
      }
    }
  }

  function SubRank(plan: seq<SubtaskSpec>, rank: map<string, nat>, i: nat): nat {
    if i < |plan| && plan[i].id in rank then rank[plan[i].id] else 0
  }

  lemma RankBelowTop(plan: seq<SubtaskSpec>, rank: map<string, nat>, i: nat)
    requires i < |plan| && rank.Keys == Adjacency(plan).Keys
    requires forall a :: a in Adjacency(plan) ==> rank[a] < |Adjacency(plan)|
    ensures SubRank(plan, rank, i) < |Adjacency(plan)|
  {
    AdjacencyKeys(plan);
    assert plan[i] in plan;
    assert plan[i].id in Adjacency(plan);
  }

  lemma {:induction false} PositionIs(ids: seq<string>, i: nat)
    requires Distinct(ids) && i < |ids|
    ensures Position(ids, ids[i]) == i
  {
  }

  /** With each dependency resolved to its job, as the scheduler's documentation has it, no valid
      plan deadlocks: whatever the schedule, once nothing of it is queued every job has run exactly
      once, dependencies before dependents, the continuation last, and the handle is complete. */
  lemma ResolvedPlanCompletes(st0: Sched, planId: string, plan: seq<SubtaskSpec>, ids: seq<string>,
                              continuation: string, js: seq<string>)
    requires |ids| == |plan| && ValidPlan(plan) && plan != []
    requires FreshNames(st0, planId, ids, continuation)
    requires RunAll(FannedOut(st0, planId, ids, Resolved(plan, ids), continuation), js).Some?
    requires Idle(RunAll(FannedOut(st0, planId, ids, Resolved(plan, ids), continuation), js).value,
                  JobGraph(ids, Resolved(plan, ids), continuation))
    ensures var graph := JobGraph(ids, Resolved(plan, ids), continuation);
            var st := RunAll(FannedOut(st0, planId, ids, Resolved(plan, ids), continuation), js).value;
            var ran := PlanPart(js, graph);
            && FinishOrder(graph, ran) && (forall id :: id in ran <==> id in graph)
            && |ran| == |plan| + 1 && ran[|plan|] == continuation
            && planId in st.handles && st.handles[planId].state.Joined?
  {
    hide FannedOut, PlanInv, Idle, RunAll, JobGraph, HandleInv, ValidPlan, Resolved, Ranked, Closed;
    var deps := Resolved(plan, ids);
    var start := FannedOut(st0, planId, ids, deps, continuation);
    var graph := JobGraph(ids, deps, continuation);
    var ran := PlanPart(js, graph);
    var rank := ResolvedIsRanked(st0, planId, plan, ids, continuation);
    JobGraphAt(ids, deps, continuation, st0, planId);
    ResolvedStayInside(st0, planId, plan, ids, continuation);
    FanOutEstablishes(st0, planId, ids, deps, continuation);
    RunsKeepInvariant(start, planId, graph, ids, js);
    var st := RunAll(start, js).value;
    DoneIsInPlan(st, planId, graph, ids, ran);
    forall id | id in graph ensures id in ran {
      RankedJobRuns(st, planId, graph, ids, ran, rank, id);
    }
    ContinuationIsLast(graph, ids, ran, continuation);
  }

  /** And every run of it can be completed, by running the jobs not yet run once each. */
  lemma ResolvedPlanCanFinish(st0: Sched, planId: string, plan: seq<SubtaskSpec>, ids: seq<string>,
                              continuation: string, js: seq<string>) returns (more: seq<string>)
    requires |ids| == |plan| && ValidPlan(plan) && plan != []
    requires FreshNames(st0, planId, ids, continuation)
    requires RunAll(FannedOut(st0, planId, ids, Resolved(plan, ids), continuation), js).Some?
    ensures var graph := JobGraph(ids, Resolved(plan, ids), continuation);
            var all := RunAll(FannedOut(st0, planId, ids, Resolved(plan, ids), continuation), js + more);
            && |PlanPart(js, graph)| + |more| <= |plan| + 1
            && all.Some? && Idle(all.value, graph)
            && planId in all.value.handles && all.value.handles[planId].state.Joined?
  {
    hide FannedOut, PlanInv, Idle, RunAll, JobGraph, HandleInv, ValidPlan, Resolved, FinishOrder;
    var deps := Resolved(plan, ids);
    var start := FannedOut(st0, planId, ids, deps, continuation);
    var graph := JobGraph(ids, deps, continuation);
    JobGraphAt(ids, deps, continuation, st0, planId);
    ResolvedStayInside(st0, planId, plan, ids, continuation);
    FanOutEstablishes(st0, planId, ids, deps, continuation);
    RunsKeepInvariant(start, planId, graph, ids, js);
    more := RunsExtendToIdle(RunAll(start, js).value, planId, graph, ids, PlanPart(js, graph));
    RunAllConcat(start, js, more);
    ResolvedPlanCompletes(st0, planId, plan, ids, continuation, js + more);
    GraphSize(ids, deps, continuation, st0, planId);
  }

  lemma GraphSize(ids: seq<string>, deps: seq<seq<string>>, continuation: string, st: Sched, planId: string)
    requires |ids| == |deps| && FreshNames(st, planId, ids, continuation)
    ensures |JobGraph(ids, deps, continuation)| == |ids| + 1
  {
    hide JobGraph;
    JobGraphAt(ids, deps, continuation, st, planId);
    var g, all := JobGraph(ids, deps, continuation), ids + [continuation];
    DistinctSet(all);
    assert g.Keys == set x | x in all;
    assert |g| == |g.Keys|;
  }

  lemma ResolvedStayInside(st: Sched, planId: string, plan: seq<SubtaskSpec>, ids: seq<string>, continuation: string)
    requires |ids| == |plan| && ValidPlan(plan) && FreshNames(st, planId, ids, continuation)
    ensures forall i, d :: 0 <= i < |ids| && d in Resolved(plan, ids)[i] ==> d !in st.jobs
  {
    hide Resolved, Acyclic, GoodBefore;
    forall i, d | 0 <= i < |ids| && d in Resolved(plan, ids)[i] ensures d !in st.jobs {
      var j := ResolvedEdge(plan, ids, i, d);
    }
  }

  lemma ContinuationIsLast(graph: Graph, ids: seq<string>, ran: seq<string>, continuation: string)
    requires FinishOrder(graph, ran) && continuation in graph && graph[continuation] == ids
    requires Distinct(ids) && continuation !in ids
    requires forall id :: id in graph <==> id in ids || id == continuation
    requires forall id :: id in ran <==> id in graph
    ensures |ran| == |ids| + 1 && ran[|ids|] == continuation
  {
    hide FinishOrder;
    var all := ids + [continuation];
    CoverCount(all, ran);
    OrderIsDistinct(graph, ran);
    CoverCount(ran, all);
    var at :| 0 <= at < |ran| && ran[at] == continuation;
    forall d | d in ids ensures d in ran[..at] { FinishedBefore(graph, ran, at, d); }
    CoverCount(ids, ran[..at]);
  }

  lemma OrderIsDistinct(graph: Graph, ran: seq<string>)
    requires FinishOrder(graph, ran)
    ensures Distinct(ran)
  {
  }

  lemma FinishedBefore(graph: Graph, ran: seq<string>, at: nat, d: string)
    requires FinishOrder(graph, ran) && at < |ran| && Edge(graph, ran[at], d)
    ensures d in ran[..at]
  {
  }

  // ---------------------------------------------------------------- failure

  /** A worker runs a queued job to failure; then the failure hook runs. */
  function Fail(st: Sched, id: string): Option<Sched> {
    if id in st.queue && id in st.jobs && st.jobs[id].state.Pending? then
      Some(ChildFailure(st.(jobs := st.jobs[id := st.jobs[id].(state := Failed)], queue := Without(st.queue, id)), id))
    else None
  }

  /** A handle once some child has failed: it closes as soon as every child is accounted for. */
  ghost predicate FailedHandle(h: Handle, children: seq<string>, done: seq<string>) {
    && h.children == children && Distinct(h.completed) && Distinct(h.failed) && h.failed != []
    && (forall c :: c in h.completed <==> c in done && c in children)
    && (forall c :: c in h.failed ==> c in children && c !in h.completed)
    && h.state == (if |h.completed| + |h.failed| >= |children| then JoinFailed else Waiting)
  }

  lemma FailingKeepsHandle(h: Handle, children: seq<string>, done: seq<string>, id: string)
    requires HandleInv(h, children, done) || FailedHandle(h, children, done)
    requires Distinct(children) && id in children && id !in done
    ensures FailedHandle(MarkFailed(h, id), children, done)
    ensures forall c :: c in MarkFailed(h, id).failed <==> c in h.failed || c == id
  {
    var failed := if id in h.failed then h.failed else h.failed + [id];
    assert id in failed;
    if HandleInv(h, children, done) {
      CompletedCount(h.completed, children);
    }
  }

  lemma AccountedFor(completed: seq<string>, failed: seq<string>, children: seq<string>)
    requires Distinct(children) && forall c :: c in children ==> c in completed || c in failed
    ensures |completed| + |failed| >= |children|
  {
    var both := completed + failed;
    forall c | c in children ensures c in both { }
    CoverCount(children, both);
  }

  lemma {:induction false} CoverCount(children: seq<string>, cover: seq<string>)
    requires Distinct(children) && forall c :: c in children ==> c in cover
    ensures |children| <= |cover|
  {
    if |children| > |cover| {
      ListSetBound(cover);
      Pigeonhole(children, set x | x in cover);
    }
  }

  lemma {:induction false} ListSetBound(s: seq<string>)
    ensures |set x | x in s| <= |s|
  {
    if |s| > 0 {
      var init := s[..|s| - 1];
      ListSetBound(init);
      assert (set x | x in s) == (set x | x in init) + {s[|s| - 1]};
    }
  }

  /** Cancelling runs through the children one by one. */
  lemma {:induction false} CancelJobs(st: Sched, planId: string, id: string, children: seq<string>, done: seq<string>,
                                      n: nat)
    requires n <= |children| && Distinct(children) && id in children && id !in done
    requires planId in st.handles && forall c :: c in children ==> c in st.jobs
    requires forall c :: c in children && c != id ==>
               (c in done <==> st.jobs[c].state.Succeeded?) &&
               (st.jobs[c].state.Pending? || st.jobs[c].state.Blocked? || st.jobs[c].state.Succeeded?)
    ensures var r := CancelSiblings(st, planId, id, children[..n]);
            && r.jobs.Keys == st.jobs.Keys && planId in r.handles
            && (forall x :: x in st.jobs ==>
                  r.jobs[x] == (if x in children[..n] && x != id
                                && x !in done then st.jobs[x].(state := Failed) else st.jobs[x]))
  {
    if n > 0 {
      hide MarkFailed, CancelSiblings, Distinct;
      CancelJobs(st, planId, id, children, done, n - 1);
      OneMoreSibling(st, planId, id, children, n);
      EarlierDiffer(children, n - 1);
    }
  }

  lemma {:induction false} CancelHandle(st: Sched, planId: string, id: string, children: seq<string>,
                                        done: seq<string>, n: nat)
    requires n <= |children| && Distinct(children) && id in children && id !in done
    requires planId in st.handles && forall c :: c in children ==> c in st.jobs
    requires forall c :: c in children && c != id ==>
               (c in done <==> st.jobs[c].state.Succeeded?) &&
               (st.jobs[c].state.Pending? || st.jobs[c].state.Blocked? || st.jobs[c].state.Succeeded?)
    requires FailedHandle(st.handles[planId], children, done) && id in st.handles[planId].failed
    ensures var r := CancelSiblings(st, planId, id, children[..n]);
            && planId in r.handles && FailedHandle(r.handles[planId], children, done)
            && id in r.handles[planId].failed
            && (forall c :: c in children[..n] ==> c in done || c in r.handles[planId].failed)
  {
    if n > 0 {
      hide FailedHandle, MarkFailed, CancelSibling, CancelSiblings, Distinct;
      CancelHandle(st, planId, id, children, done, n - 1);
      CancelJobs(st, planId, id, children, done, n - 1);
      var c, before := children[n - 1], CancelSiblings(st, planId, id, children[..n - 1]);
      OneMoreSibling(st, planId, id, children, n);
      assert c !in children[..n - 1] by { EarlierDiffer(children, n - 1); }
      assert before.jobs[c] == st.jobs[c];
      CancelStep(before, planId, id, children, done, c);
    }
  }

  lemma OneMoreSibling(st: Sched, planId: string, id: string, children: seq<string>, n: nat)
    requires 0 < n <= |children|
    ensures CancelSiblings(st, planId, id, children[..n])
            == CancelSibling(CancelSiblings(st, planId, id, children[..n - 1]), planId, id, children[n - 1])
    ensures forall c :: c in children[..n] <==> c in children[..n - 1] || c == children[n - 1]
  {
    hide CancelSibling;
    assert children[..n][..n - 1] == children[..n - 1];
    assert children[..n] == children[..n - 1] + [children[n - 1]];
  }

  lemma EarlierDiffer(children: seq<string>, n: nat)
    requires Distinct(children) && n < |children|
    ensures children[n] !in children[..n]
  {
  }

  lemma CancelStep(before: Sched, planId: string, id: string, children: seq<string>, done: seq<string>, c: string)
    requires planId in before.handles && FailedHandle(before.handles[planId], children, done)
             && id in before.handles[planId].failed
    requires Distinct(children) && c in children && c in before.jobs
    requires c == id || c in done || before.jobs[c].state.Pending? || before.jobs[c].state.Blocked?
    requires c in done ==> before.jobs[c].state.Succeeded?
    ensures var r := CancelSibling(before, planId, id, c);
            && planId in r.handles && FailedHandle(r.handles[planId], children, done)
            && (c in done || c in r.handles[planId].failed)
            && forall x :: x in before.handles[planId].failed ==> x in r.handles[planId].failed
  {
    hide FailedHandle, MarkFailed;
    if c != id && c !in done {
      FailingKeepsHandle(before.handles[planId], children, done, c);
    }
  }

  /** After the first failure of a subtask every sibling is settled and the handle has failed:
      no child of the plan is left waiting, and those that had succeeded keep their success. The hook does
      not cancel what depends on all of them: the continuation stays BLOCKED, and cannot be released. */
  lemma FailureSettlesPlan(st: Sched, planId: string, plan: Graph, children: seq<string>, done: seq<string>, id: string)
    requires PlanInv(st, planId, plan, children, done) && Distinct(children)
    requires id in children && (forall c :: c in children ==> c in plan)
    requires Fail(st, id).Some?
    ensures var r := Fail(st, id).value;
            && (forall c :: c in children ==>
                  c in r.jobs && r.jobs[c].state == (if c in done then Succeeded else Failed))
            && planId in r.handles && r.handles[planId].state.JoinFailed?
            && (forall x :: x in plan && x !in children && id in plan[x] ==>
                  x in r.jobs && r.jobs[x].state.Blocked? && id in r.jobs[x].dependsOn
                      && !Unblockable(r.jobs, planId, x))
  {
    hide HandleInv, FailedHandle, FinishOrder, MarkFailed;
    forall c | c in children ensures JobInv(st, planId, plan[c], done, c) { }
    assert id !in done;
    FailingKeepsHandle(st.handles[planId], children, done, id);
    var mid := st.(jobs := st.jobs[id := st.jobs[id].(state := Failed)], queue := Without(st.queue, id));
    HandleChildren(st.handles[planId], children, done);
    var marked := mid.(handles := mid.handles[planId := MarkFailed(mid.handles[planId], id)]);
    CancelJobs(marked, planId, id, children, done, |children|);
    CancelHandle(marked, planId, id, children, done, |children|);
    assert children[..|children|] == children;
    var r := CancelSiblings(marked, planId, id, children);
    assert Fail(st, id).value == r;
    forall x | x in plan && x !in children && id in plan[x]
      ensures x in r.jobs && r.jobs[x].state.Blocked? && id in r.jobs[x].dependsOn && !Unblockable(r.jobs, planId, x) {
      assert JobInv(st, planId, plan[x], done, x);
      assert r.jobs[id].state.Failed?;
    }
    SettledHandle(r.handles[planId], children, done);
  }

  lemma HandleChildren(h: Handle, children: seq<string>, done: seq<string>)
    requires HandleInv(h, children, done)
    ensures h.children == children
  {
  }

  lemma SettledHandle(h: Handle, children: seq<string>, done: seq<string>)
    requires FailedHandle(h, children, done) && Distinct(children)
    requires forall c :: c in children ==> c in done || c in h.failed
    ensures h.state.JoinFailed?
  {
    AccountedFor(h.completed, h.failed, children);
  }
}
