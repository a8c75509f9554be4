/** Schedules in which jobs are first taken and later end, well or badly, with other jobs in between. */
module DecompositionStages {
  import opened Wrappers
  import opened Digraph
  import opened DagValidator
  import opened Decomposition
  import opened DecompositionRuns

  datatype Event = Starts(id: string) | Succeeds(id: string) | Fails(id: string)

  function SetState(st: Sched, id: string, state: JobState): Sched
    requires id in st.jobs
  {
    st.(jobs := st.jobs[id := st.jobs[id].(state := state)])
  }

  /** A worker takes a queued PENDING job; a running job ends, and the hook for its outcome runs. */
  function Occur(st: Sched, e: Event): Option<Sched> {
    if e.id !in st.jobs then None
    else
      match e
      case Starts(id) =>
        if id in st.queue && st.jobs[id].state.Pending?
        then Some(SetState(st, id, Running).(queue := Without(st.queue, id))) else None
      case Succeeds(id) =>
        if st.jobs[id].state.Running? then Some(ChildSuccess(SetState(st, id, Succeeded), id)) else None
      case Fails(id) =>
        if st.jobs[id].state.Running? then Some(ChildFailure(SetState(st, id, Failed), id)) else None
  }

  function OccurAll(st: Sched, es: seq<Event>): Option<Sched> {
    if |es| == 0 then Some(st)
    else
      match OccurAll(st, es[..|es| - 1])
      case None => None
      case Some(before) => Occur(before, es[|es| - 1])
  }

  /** The jobs that ended, in order. */
  function Ended(es: seq<Event>): seq<string> {
    if |es| == 0 then []
    else Ended(es[..|es| - 1]) + (if es[|es| - 1].Starts? then [] else [es[|es| - 1].id])
  }

  ghost predicate AllSucceed(es: seq<Event>) {
    forall i :: 0 <= i < |es| ==> !es[i].Fails?
  }

  // ---------------------------------------------------------------- staged runs are runs

  ghost predicate IsRunning(st: Sched, id: string) {
    id in st.jobs && st.jobs[id].state.Running?
  }

  ghost predicate NoneRunning(st: Sched) {
    forall id :: !IsRunning(st, id)
  }

  ghost predicate QueueIsStored(st: Sched) {
    forall x :: x in st.queue ==> x in st.jobs
  }

  ghost predicate AheadAt(a: Sched, b: Sched, x: string) {
    && x in a.jobs && x in b.jobs
    && if b.jobs[x].state.Running? then
         a.jobs[x].state.Pending? && x in a.queue && x !in b.queue && b.jobs[x] == a.jobs[x].(state := Running)
       else
         a.jobs[x] == b.jobs[x] && (x in a.queue <==> x in b.queue)
  }

  /** `b` is `a`, except that some queued jobs of `a` have been taken. */
  ghost predicate Ahead(a: Sched, b: Sched) {
    && a.order == b.order && a.handles == b.handles && a.jobs.Keys == b.jobs.Keys
    && QueueIsStored(a) && QueueIsStored(b)
    && forall x :: x in a.jobs ==> AheadAt(a, b, x)
  }

  lemma StartKeepsAhead(a: Sched, b: Sched, id: string)
    requires Ahead(a, b) && Occur(b, Starts(id)).Some?
    ensures Ahead(a, Occur(b, Starts(id)).value)
  {
    assert AheadAt(a, b, id);
    forall x | x in a.jobs ensures AheadAt(a, Occur(b, Starts(id)).value, x) { assert AheadAt(a, b, x); }
  }

  lemma SameUnblockable(a: Sched, b: Sched, planId: string, x: string)
    requires Ahead(a, b)
    ensures Unblockable(a.jobs, planId, x) <==> Unblockable(b.jobs, planId, x)
  {
    if x in a.jobs {
      assert AheadAt(a, b, x);
      forall d | d in a.jobs ensures a.jobs[d].state.Succeeded? <==> b.jobs[d].state.Succeeded? {
        assert AheadAt(a, b, d);
      }
      SameSuccesses(a.jobs, b.jobs, a.jobs[x]);
      SameDependencies(b.jobs, a.jobs[x], b.jobs[x]);
    }
  }

  lemma EndingKeepsAhead(a: Sched, b: Sched, id: string)
    requires Ahead(a, b) && IsRunning(b, id)
    ensures Execute(a, id).Some? && Ahead(Finished(a, id), SetState(b, id, Succeeded))
  {
    assert AheadAt(a, b, id);
    forall x | x in a.jobs ensures AheadAt(Finished(a, id), SetState(b, id, Succeeded), x) { assert AheadAt(a, b, x); }
  }

  lemma HandlesDoNotMatter(a: Sched, b: Sched, handles: map<string, Handle>)
    requires Ahead(a, b)
    ensures Ahead(a.(handles := handles), b.(handles := handles))
  {
    forall x | x in a.jobs ensures AheadAt(a.(handles := handles), b.(handles := handles), x) {
      assert AheadAt(a, b, x);
    }
  }

  /** Ending a running job well does to `b` what running it at once does to `a`. */
  lemma SuccessKeepsAhead(a: Sched, b: Sched, id: string)
    requires Ahead(a, b) && Occur(b, Succeeds(id)).Some?
    ensures Execute(a, id).Some? && Ahead(Execute(a, id).value, Occur(b, Succeeds(id)).value)
  {
    hide MarkCompleted, UnblockAll, AheadAt, QueueIsStored;
    EndingKeepsAhead(a, b, id);
    var x, y := Finished(a, id), SetState(b, id, Succeeded);
    EndedSamePlan(a, b, id);
    var p := x.jobs[id].planId;
    if p in x.handles {
      var handles := x.handles[p := MarkCompleted(x.handles[p], id)];
      HandlesDoNotMatter(x, y, handles);
      UnblockKeepsAhead(x.(handles := handles), y.(handles := handles), p);
    }
  }

  lemma EndedSamePlan(a: Sched, b: Sched, id: string)
    requires Ahead(a, b) && IsRunning(b, id)
    ensures id in a.jobs && a.jobs[id].planId == b.jobs[id].planId
  {
    assert AheadAt(a, b, id);
  }

  lemma UnblockKeepsAhead(a: Sched, b: Sched, p: string)
    requires Ahead(a, b)
    ensures Ahead(UnblockAll(a, p, a.order), UnblockAll(b, p, b.order))
  {
    hide Unblockable, UnblockAll, AheadAt;
    var x, y := UnblockAll(a, p, a.order), UnblockAll(b, p, b.order);
    UnblockAllEffect(a, p, a.order);
    UnblockAllEffect(b, p, b.order);
    forall id ensures Unblockable(a.jobs, p, id) ==> id in a.jobs { BlockedOnly(a.jobs, p, id); }
    forall id ensures Unblockable(b.jobs, p, id) ==> id in b.jobs { BlockedOnly(b.jobs, p, id); }
    forall id | id in a.jobs ensures AheadAt(x, y, id) {
      SameUnblockable(a, b, p, id);
      BlockedOnly(a.jobs, p, id);
      BlockedOnly(b.jobs, p, id);
      ReleasedAhead(a, b, x, y, id, id in a.order && Unblockable(a.jobs, p, id));
    }
  }

  lemma ReleasedAhead(a: Sched, b: Sched, x: Sched, y: Sched, id: string, released: bool)
    requires Ahead(a, b) && id in a.jobs && id in x.jobs && id in y.jobs
    requires released ==> a.jobs[id].state.Blocked? && b.jobs[id].state.Blocked?
    requires x.jobs[id] == (if released then a.jobs[id].(state := Pending) else a.jobs[id])
             && (id in x.queue <==> id in a.queue || released)
    requires y.jobs[id] == (if released then b.jobs[id].(state := Pending) else b.jobs[id])
             && (id in y.queue <==> id in b.queue || released)
    ensures AheadAt(x, y, id)
  {
    assert AheadAt(a, b, id);
  }

  lemma BlockedOnly(jobs: map<string, Job>, p: string, id: string)
    ensures Unblockable(jobs, p, id) ==> id in jobs && jobs[id].state.Blocked?
  {
  }

  /** A schedule whose jobs all succeed, however their starts and ends interleave, is the run of the
      jobs that ended, in that order; the jobs still running are queued there. */
  lemma {:induction false} StagedIsRun(st: Sched, es: seq<Event>)
    requires AllSucceed(es) && OccurAll(st, es).Some? && NoneRunning(st) && QueueIsStored(st)
    ensures RunAll(st, Ended(es)).Some? && Ahead(RunAll(st, Ended(es)).value, OccurAll(st, es).value)
  {
    hide Execute, Occur, Ahead;
    if |es| == 0 {
      AheadOfItself(st);
    } else {
      var init, e := es[..|es| - 1], es[|es| - 1];
      StagedIsRun(st, init);
      var a, b := RunAll(st, Ended(init)).value, OccurAll(st, init).value;
      assert !e.Fails?;
      match e {
        case Starts(id) =>
          StartKeepsAhead(a, b, id);
          assert Ended(es) == Ended(init);
        case Succeeds(id) =>
          SuccessKeepsAhead(a, b, id);
          assert Ended(es)[..|Ended(es)| - 1] == Ended(init);
        case Fails(id) => assert false;
      }
    }
  }

  lemma AheadOfItself(st: Sched)
    requires NoneRunning(st) && QueueIsStored(st)
    ensures Ahead(st, st)
  {
    forall x | x in st.jobs ensures AheadAt(st, st, x) { assert !IsRunning(st, x); }
  }

  /** Nothing of the plan is queued, and nothing of it is running. */
  ghost predicate AtRest(st: Sched, plan: Graph) {
    forall id :: id in plan ==> id !in st.queue && !IsRunning(st, id)
  }

  lemma RestIsIdle(a: Sched, b: Sched, plan: Graph)
    requires Ahead(a, b) && AtRest(b, plan)
    ensures Idle(a, plan)
  {
    forall id | id in plan ensures id !in a.queue {
      if id in a.jobs { assert AheadAt(a, b, id); }
    }
  }

  lemma {:induction false} EnqueueStartsNothing(st: Sched, planId: string, ids: seq<string>, deps: seq<seq<string>>)
    requires |ids| == |deps| && NoneRunning(st) && QueueIsStored(st)
    ensures NoneRunning(EnqueueSubtasks(st, planId, ids, deps)) && QueueIsStored(EnqueueSubtasks(st, planId, ids, deps))
  {
    if |ids| > 0 {
      var n := |ids| - 1;
      EnqueueStartsNothing(st, planId, ids[..n], deps[..n]);
      OneMoreStartsNothing(EnqueueSubtasks(st, planId, ids[..n], deps[..n]),
                           Job(ids[n], SubtaskJob, planId, Pending, deps[n]));
    }
  }

  lemma OneMoreStartsNothing(st: Sched, job: Job)
    requires NoneRunning(st) && QueueIsStored(st) && job.state.Pending?
    ensures NoneRunning(Enqueue(st, job)) && QueueIsStored(Enqueue(st, job))
  {
    forall id ensures !IsRunning(Enqueue(st, job), id) { assert !IsRunning(st, id); }
  }

  lemma FanOutStartsNothing(st: Sched, planId: string, ids: seq<string>, deps: seq<seq<string>>, continuation: string)
    requires |ids| == |deps| && NoneRunning(st) && QueueIsStored(st)
    ensures var r := FannedOut(st, planId, ids, deps, continuation); NoneRunning(r) && QueueIsStored(r)
  {
    hide Enqueue;
    EnqueueStartsNothing(st, planId, ids, deps);
    var mid := EnqueueSubtasks(st, planId, ids, deps);
    var noted := mid.(handles := mid.handles[planId := Handle(ids, [], [], Waiting)]);
    assert NoneRunning(noted) by { forall id ensures !IsRunning(noted, id) { assert !IsRunning(mid, id); } }
    OneMoreStartsNothing(noted, Job(continuation, ContinuationJob, planId, Pending, ids));
  }

  /** So no valid plan deadlocks with a RUNNING phase either: once nothing of it is queued or running,
      every job has ended exactly once, dependencies before dependents, the continuation last. */
  lemma StagedPlanCompletes(st0: Sched, planId: string, plan: seq<SubtaskSpec>, ids: seq<string>,
                            continuation: string, es: seq<Event>)
    requires |ids| == |plan| && ValidPlan(plan) && plan != [] && FreshNames(st0, planId, ids, continuation)
    requires NoneRunning(st0) && QueueIsStored(st0)
    ensures var start := FannedOut(st0, planId, ids, Resolved(plan, ids), continuation);
            var graph := JobGraph(ids, Resolved(plan, ids), continuation);
            AllSucceed(es) && OccurAll(start, es).Some? && AtRest(OccurAll(start, es).value, graph) ==>
              var ran := PlanPart(Ended(es), graph);
              var st := OccurAll(start, es).value;
              && FinishOrder(graph, ran) && (forall id :: id in ran <==> id in graph)
              && |ran| == |plan| + 1 && ran[|plan|] == continuation
              && planId in st.handles && st.handles[planId].state.Joined?
  {
    hide FannedOut, RunAll, OccurAll, JobGraph, Resolved, ValidPlan, FreshNames, FinishOrder, AtRest, Idle, PlanPart,
         NoneRunning, QueueIsStored;
    var start := FannedOut(st0, planId, ids, Resolved(plan, ids), continuation);
    FanOutStartsNothing(st0, planId, ids, Resolved(plan, ids), continuation);
    var graph := JobGraph(ids, Resolved(plan, ids), continuation);
    if AllSucceed(es) && OccurAll(start, es).Some? && AtRest(OccurAll(start, es).value, graph) {
      StagedIsRun(start, es);
      RestIsIdle(RunAll(start, Ended(es)).value, OccurAll(start, es).value, graph);
      ResolvedPlanCompletes(st0, planId, plan, ids, continuation, Ended(es));
    }
  }

  // ---------------------------------------------------------------- after a failure

  /** A job that can never start again: it has ended or is running, or waits for one that has failed. */
  ghost predicate Spent(st: Sched, x: string) {
    && x in st.jobs && !st.jobs[x].state.Pending?
    && (st.jobs[x].state.Blocked? ==> exists d :: d in st.jobs[x].dependsOn && d in st.jobs && st.jobs[d].state.Failed?)
  }

  /** What an event can do to a job: nothing but its own start and end, a release of a blocked job all of
      whose dependencies have succeeded, or the cancellation of a waiting one. */
  ghost predicate MovesOn(st: Sched, r: Sched, e: Event, x: string) {
    && x in st.jobs && x in r.jobs && r.jobs[x].dependsOn == st.jobs[x].dependsOn
    && r.jobs[x].planId == st.jobs[x].planId
    && (r.jobs[x].state == st.jobs[x].state
        || (x == e.id && st.jobs[x].state == (if e.Starts? then Pending else Running))
        || (st.jobs[x].state.Blocked? && r.jobs[x].state.Pending? && DepsSatisfied(r.jobs, r.jobs[x]))
        || ((st.jobs[x].state.Blocked? || st.jobs[x].state.Pending?) && r.jobs[x].state.Failed? && e.Fails?))
    && (x == e.id && !e.Starts? ==> r.jobs[x].state == (if e.Fails? then Failed else Succeeded))
  }

  lemma {:induction false} CancelMoves(st: Sched, planId: string, id: string, children: seq<string>)
    ensures var r := CancelSiblings(st, planId, id, children);
            && r.jobs.Keys == st.jobs.Keys && r.order == st.order && r.queue == st.queue
            && r.handles.Keys == st.handles.Keys
            && (forall p :: p in st.handles ==> r.handles[p].children == st.handles[p].children)
            && (forall x :: x in st.jobs ==>
                  r.jobs[x] == st.jobs[x] ||
                  (x != id && x in children && (st.jobs[x].state.Blocked? || st.jobs[x].state.Pending?)
                   && r.jobs[x] == st.jobs[x].(state := Failed)))
  {
    if |children| > 0 {
      CancelMoves(st, planId, id, children[..|children| - 1]);
      var before := CancelSiblings(st, planId, id, children[..|children| - 1]);
      var c := children[|children| - 1];
      assert forall x :: x in children[..|children| - 1] ==> x in children;
      if planId in before.handles { FailingKeepsChildren(before.handles[planId], c); }
    }
  }

  lemma FailingKeepsChildren(h: Handle, id: string)
    ensures MarkFailed(h, id).children == h.children && MarkCompleted(h, id).children == h.children
  {
  }

  lemma FailureMoves(st: Sched, id: string, x: string)
    requires Occur(st, Fails(id)).Some? && x in st.jobs
    ensures MovesOn(st, Occur(st, Fails(id)).value, Fails(id), x)
    ensures Occur(st, Fails(id)).value.queue == st.queue
  {
    hide MarkFailed, CancelSiblings, DepsSatisfied;
    var mid := SetState(st, id, Failed);
    var p := st.jobs[id].planId;
    if p in mid.handles {
      var marked := mid.(handles := mid.handles[p := MarkFailed(mid.handles[p], id)]);
      CancelMoves(marked, p, id, mid.handles[p].children);
    }
  }

  lemma SuccessMoves(st: Sched, id: string, x: string)
    requires Occur(st, Succeeds(id)).Some? && x in st.jobs
    ensures MovesOn(st, Occur(st, Succeeds(id)).value, Succeeds(id), x)
  {
    hide MarkCompleted, DepsSatisfied;
    var mid := SetState(st, id, Succeeded);
    var p := st.jobs[id].planId;
    if p in mid.handles {
      var marked := mid.(handles := mid.handles[p := MarkCompleted(mid.handles[p], id)]);
      UnblockAllEffect(marked, p, marked.order);
      var r := UnblockAll(marked, p, marked.order);
      assert Occur(st, Succeeds(id)).value == r;
      if Unblockable(marked.jobs, p, x) {
        forall d ensures d in marked.jobs && marked.jobs[d].state.Succeeded? ==>
            d in r.jobs && r.jobs[d].state.Succeeded? {
        }
        StillSatisfied(marked.jobs, r.jobs, marked.jobs[x], r.jobs[x]);
      }
    }
  }

  lemma StillSatisfied(a: map<string, Job>, b: map<string, Job>, before: Job, after: Job)
    requires DepsSatisfied(a, before) && before.dependsOn == after.dependsOn
    requires forall d :: d in a && a[d].state.Succeeded? ==> d in b && b[d].state.Succeeded?
    ensures DepsSatisfied(b, after)
  {
  }

  lemma EventMoves(st: Sched, e: Event, x: string)
    requires Occur(st, e).Some? && x in st.jobs
    ensures MovesOn(st, Occur(st, e).value, e, x)
  {
    match e {
      case Starts(id) =>
      case Succeeds(id) => SuccessMoves(st, id, x);
      case Fails(id) => FailureMoves(st, id, x);
    }
  }

  lemma FailedStaysFailed(st: Sched, e: Event, d: string)
    requires Occur(st, e).Some? && d in st.jobs && st.jobs[d].state.Failed?
    ensures d in Occur(st, e).value.jobs && Occur(st, e).value.jobs[d].state.Failed?
  {
    hide Occur;
    EventMoves(st, e, d);
    EventIsEnabled(st, e);
  }

  lemma EventIsEnabled(st: Sched, e: Event)
    requires Occur(st, e).Some?
    ensures e.id in st.jobs && st.jobs[e.id].state == (if e.Starts? then Pending else Running)
  {
  }

  lemma SpentStaysSpent(st: Sched, e: Event, x: string)
    requires Occur(st, e).Some? && Spent(st, x)
    ensures Spent(Occur(st, e).value, x) && !(e == Starts(x))
    ensures st.jobs[x].state.Blocked? || st.jobs[x].state.Failed? ==>
              Occur(st, e).value.jobs[x].state.Blocked? || Occur(st, e).value.jobs[x].state.Failed?
  {
    hide Occur;
    EventMoves(st, e, x);
    EventIsEnabled(st, e);
    var r := Occur(st, e).value;
    if st.jobs[x].state.Blocked? {
      var d :| d in st.jobs[x].dependsOn && d in st.jobs && st.jobs[d].state.Failed?;
      FailedStaysFailed(st, e, d);
      assert d in r.jobs[x].dependsOn;
      NotSatisfied(r.jobs, r.jobs[x], d);
    }
  }

  lemma NotSatisfied(jobs: map<string, Job>, job: Job, d: string)
    requires d in job.dependsOn && d in jobs && jobs[d].state.Failed?
    ensures !DepsSatisfied(jobs, job)
  {
  }

  /** Whatever happens afterwards, to this plan or others: a spent job is never started, and one that
      waits or has failed never succeeds. */
  lemma {:induction false} SpentForever(st: Sched, es: seq<Event>, x: string)
    requires Spent(st, x) && OccurAll(st, es).Some?
    ensures Spent(OccurAll(st, es).value, x) && Starts(x) !in es
    ensures st.jobs[x].state.Blocked? || st.jobs[x].state.Failed? ==>
              OccurAll(st, es).value.jobs[x].state.Blocked? || OccurAll(st, es).value.jobs[x].state.Failed?
  {
    hide Occur, Spent;
    if |es| > 0 {
      SpentForever(st, es[..|es| - 1], x);
      SpentStaysSpent(OccurAll(st, es[..|es| - 1]).value, es[|es| - 1], x);
      SpentIsStored(OccurAll(st, es[..|es| - 1]).value, x);
      SpentIsStored(OccurAll(st, es).value, x);
      SpentIsStored(st, x);
      assert es == es[..|es| - 1] + [es[|es| - 1]];
    } else {
      SpentIsStored(st, x);
    }
  }

  lemma SpentIsStored(st: Sched, x: string)
    requires Spent(st, x)
    ensures x in st.jobs
  {
  }

  /** After the first failure of a subtask the plan is over: nothing of it is ever started again, whatever
      else succeeds or fails, and no job that had not succeeded by then ever does. The continuation in
      particular stays unreleased for good. */
  lemma FailedPlanIsOver(st: Sched, planId: string, plan: Graph, children: seq<string>, done: seq<string>, id: string,
                         es: seq<Event>)
    requires PlanInv(st, planId, plan, children, done) && Distinct(children) && id in children
    requires (forall c :: c in children ==> c in plan) && (forall x :: x in plan && x !in children ==> id in plan[x])
    requires Fail(st, id).Some? && OccurAll(Fail(st, id).value, es).Some?
    ensures forall x :: x in plan ==>
              && Starts(x) !in es
              && x in OccurAll(Fail(st, id).value, es).value.jobs
              && (x !in done ==> !OccurAll(Fail(st, id).value, es).value.jobs[x].state.Succeeded?)
  {
    hide PlanInv, Fail, OccurAll, Unblockable, Distinct;
    FailureSettlesPlan(st, planId, plan, children, done, id);
    var r := Fail(st, id).value;
    FailedIsUndone(st, planId, plan, children, done, id);
    forall x | x in plan
      ensures Starts(x) !in es && x in OccurAll(r, es).value.jobs
      ensures x !in done ==> !OccurAll(r, es).value.jobs[x].state.Succeeded? {
      assert r.jobs[id].state.Failed?;
      assert Spent(r, x);
      SpentForever(r, es, x);
      if x !in children { DoneAreChildren(st, planId, plan, children, done, id, x); }
    }
  }

  lemma FailedIsUndone(st: Sched, planId: string, plan: Graph, children: seq<string>, done: seq<string>, id: string)
    requires PlanInv(st, planId, plan, children, done) && id in plan && Fail(st, id).Some?
    ensures id !in done
  {
    hide HandleInv, FinishOrder, AllDone, ChildFailure;
    assert JobInv(st, planId, plan[id], done, id);
  }

  lemma DoneAreChildren(st: Sched, planId: string, plan: Graph, children: seq<string>, done: seq<string>, id: string,
                        x: string)
    requires PlanInv(st, planId, plan, children, done) && x in plan && x !in children && id in plan[x] && id !in done
    ensures x !in done
  {
    hide HandleInv, FinishOrder;
    assert JobInv(st, planId, plan[x], done, x);
  }

  lemma {:induction false} WaitingAreCancelled(st: Sched, planId: string, id: string, children: seq<string>, c: string)
    requires planId in st.handles && c in children && c != id && c in st.jobs
    ensures var r := CancelSiblings(st, planId, id, children);
            planId in r.handles && c in r.jobs && !r.jobs[c].state.Pending? && !r.jobs[c].state.Blocked?
  {
    hide MarkFailed;
    var n := |children| - 1;
    CancelMoves(st, planId, id, children[..n]);
    if c in children[..n] {
      WaitingAreCancelled(st, planId, id, children[..n], c);
    } else {
      assert c == children[n];
    }
  }

  lemma FailureSpends(st: Sched, planId: string, children: seq<string>, id: string, c: string)
    requires Occur(st, Fails(id)).Some? && st.jobs[id].planId == planId && planId in st.handles
             && st.handles[planId].children == children
    requires c in children && c in st.jobs
    ensures Spent(Occur(st, Fails(id)).value, c)
  {
    hide MarkFailed, CancelSiblings;
    var mid := SetState(st, id, Failed);
    var marked := mid.(handles := mid.handles[planId := MarkFailed(mid.handles[planId], id)]);
    if c == id {
      CancelMoves(marked, planId, id, children);
    } else {
      WaitingAreCancelled(marked, planId, id, children, c);
    }
  }

  /** The same with a RUNNING phase, where siblings may be running when the first subtask fails: they may
      still end, but nothing of the plan is started any more, and what depends on them all never runs. */
  lemma StagedFailureIsOver(a: Sched, b: Sched, planId: string, plan: Graph, children: seq<string>, done: seq<string>,
                            id: string, es: seq<Event>)
    requires PlanInv(a, planId, plan, children, done) && Ahead(a, b) && id in children
    requires (forall c :: c in children ==> c in plan) && (forall x :: x in plan && x !in children ==> id in plan[x])
    requires Occur(b, Fails(id)).Some? && OccurAll(Occur(b, Fails(id)).value, es).Some?
    ensures forall x :: x in plan ==>
              && Starts(x) !in es
              && x in OccurAll(Occur(b, Fails(id)).value, es).value.jobs
              && (x !in children ==> !OccurAll(Occur(b, Fails(id)).value, es).value.jobs[x].state.Succeeded?)
  {
    hide PlanInv, Ahead, Occur, OccurAll, Spent;
    var r := Occur(b, Fails(id)).value;
    forall x | x in plan
      ensures Starts(x) !in es && x in OccurAll(r, es).value.jobs
      ensures x !in children ==> !OccurAll(r, es).value.jobs[x].state.Succeeded? {
      FailureReaches(a, b, planId, plan, children, done, id, x);
      SpentForever(r, es, x);
      SpentIsStored(OccurAll(r, es).value, x);
    }
  }

  lemma FailureReaches(a: Sched, b: Sched, planId: string, plan: Graph, children: seq<string>, done: seq<string>,
                       id: string, x: string)
    requires PlanInv(a, planId, plan, children, done) && Ahead(a, b) && id in children && x in plan && id in plan
    requires x !in children ==> id in plan[x]
    requires Occur(b, Fails(id)).Some?
    ensures var r := Occur(b, Fails(id)).value;
            Spent(r, x) && x in r.jobs && (x !in children ==> r.jobs[x].state.Blocked? || r.jobs[x].state.Failed?)
  {
    hide FinishOrder, Occur, AllDone;
    assert JobInv(a, planId, plan[id], done, id) && JobInv(a, planId, plan[x], done, x);
    assert AheadAt(a, b, id) && AheadAt(a, b, x);
    EventIsEnabled(b, Fails(id));
    HandleChildren(a.handles[planId], children, done);
    if x in children {
      FailureSpends(b, planId, children, id, x);
    } else {
      EventMoves(b, Fails(id), x);
      EventMoves(b, Fails(id), id);
      NotAllDone(plan[x], done, id);
      WaitsForFailed(Occur(b, Fails(id)).value, x, id);
    }
  }

  lemma NotAllDone(deps: seq<string>, done: seq<string>, id: string)
    requires id in deps && id !in done
    ensures !AllDone(deps, done)
  {
  }

  lemma WaitsForFailed(st: Sched, x: string, d: string)
    requires x in st.jobs && d in st.jobs && d in st.jobs[x].dependsOn && st.jobs[d].state.Failed?
             && !st.jobs[x].state.Pending?
    ensures Spent(st, x)
  {
  }
}
