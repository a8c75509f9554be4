/** The immutable, versioned runtime state of an agent and its lifecycle log. */
module AgentStates {
  import opened Wrappers

  datatype Lifecycle = Created | Activated | Running | Waiting | Suspended | Completed | Failed | AwaitingChildren

  type Time = nat

  datatype LifecycleEvent = LifecycleEvent(source: Option<Lifecycle>, target: Lifecycle, at: Time)

  /** A tool call of an LLM reply. A `defer_to` call carries its target agent and prompt. */
  datatype Call = Call(name: string, target: string, prompt: string)

  datatype DeferralResult = DeferralResult(delegate: string, success: bool, response: string)

  /** The supervisor metadata the modelled operations read or write. */
  datatype Meta = Meta(
    totalRoutes: nat, pending: Option<seq<Call>>, depth: nat, deferral: Option<DeferralResult>,
        toolResult: Option<string>)

  datatype AgentState = AgentState(
    agentId: string, lifecycle: Lifecycle, message: Option<string>, response: Option<string>,
    timestamps: map<string, Time>, version: nat, meta: Meta, history: seq<LifecycleEvent>)

  predicate IsTerminal(l: Lifecycle) {
    l.Completed? || l.Failed?
  }

  predicate IsActive(l: Lifecycle) {
    l.Running? || l.Waiting?
  }

  function Stamp(t: map<string, Time>, before: Lifecycle, after: Lifecycle, now: Time): map<string, Time> {
    var a := if before.Created? && after.Activated? then t["activated_at" := now] else t;
    match after
    case Running => (if "first_run_at" in a then a else a["first_run_at" := now])["last_run_at" := now]
    case Completed => a["completed_at" := now]
    case Failed => a["failed_at" := now]
    case Suspended => a["suspended_at" := now]
    case _ => a
  }

  /** The copy-on-write step every mutation goes through: an event only when the state changes,
      the version always. */
  function With(s: AgentState, to: Lifecycle, now: Time): AgentState {
    s.(lifecycle := to,
       history := if to != s.lifecycle then s.history + [LifecycleEvent(Some(s.lifecycle), to, now)] else s.history,
       timestamps := Stamp(s.timestamps, s.lifecycle, to, now),
       version := s.version + 1)
  }

  function NewState(agentId: string, now: Time): AgentState {
    AgentState(agentId, Created, None, None, map["created_at" := now], 1, Meta(0, None, 0, None, None),
               [LifecycleEvent(None, Created, now)])
  }

  /** The transitions the supervisor's operations make; more than the documented diagram lists. */
  predicate Permitted(a: Lifecycle, b: Lifecycle) {
    match a
    case Created => b.Activated? || IsTerminal(b)
    case Activated => b.Running? || IsTerminal(b)
    case Running => b.Activated? || b.Waiting? || b.Suspended? || b.AwaitingChildren? || IsTerminal(b)
    case Waiting => b.Activated? || b.Running? || b.Suspended? || b.AwaitingChildren? || IsTerminal(b)
    case Suspended => b.Activated? || b.Running? || IsTerminal(b)
    case AwaitingChildren => b.Activated? || b.Running? || IsTerminal(b)
    case Completed => false
    case Failed => false
  }

  /** The log is a chain from creation to the current state, along permitted transitions only. */
  ghost predicate Chained(history: seq<LifecycleEvent>, current: Lifecycle) {
    && |history| >= 1 && history[0].source == None && history[0].target == Created
    && (forall i :: 1 <= i < |history| ==>
          history[i].source == Some(history[i - 1].target) && Permitted(history[i - 1].target, history[i].target))
    && history[|history| - 1].target == current
  }

  /** The timestamp that must be present in each state. */
  predicate Stamped(t: map<string, Time>, l: Lifecycle) {
    && "created_at" in t
    && (l.Completed? ==> "completed_at" in t)
    && (l.Failed? ==> "failed_at" in t)
    && (l.Suspended? ==> "suspended_at" in t)
    && (l.Running? ==> "first_run_at" in t && "last_run_at" in t)
  }

  ghost predicate Sound(s: AgentState) {
    && Chained(s.history, s.lifecycle)
    && Stamped(s.timestamps, s.lifecycle)
    && |s.history| <= s.version
  }

  lemma NewIsSound(agentId: string, now: Time)
    ensures Sound(NewState(agentId, now))
  {
  }

  /** Each use of `With` along a permitted transition, or without one, keeps the log sound, extends
      it, and raises the version. */
  lemma WithKeepsSound(s: AgentState, to: Lifecycle, now: Time)
    requires Sound(s) && (to == s.lifecycle || Permitted(s.lifecycle, to))
    ensures var r := With(s, to, now);
            Sound(r) && r.lifecycle == to && r.version == s.version + 1
            && s.history <= r.history && r.agentId == s.agentId
  {
  }

  /** No transition is a self-loop, and none leaves a terminal state: in a sound log a terminal
      state can only be the last entry, and then it is the current one. */
  lemma EarlierEntriesAreNotTerminal(s: AgentState, i: nat)
    requires Sound(s) && i + 1 < |s.history|
    ensures !IsTerminal(s.history[i].target) && s.history[i].target != s.history[i + 1].target
  {
    var j := i + 1;
    assert s.history[j].source == Some(s.history[j - 1].target);
  }
}
