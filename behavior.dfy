/**
 * A behaviour an agent runs (src/agent/behaviors/Behavior.java): its state,
 * its optional parent, and the listener told of its state changes. The
 * hooks onStart, action and onEnd are the subclass's; here they are the
 * events they leave in a log, and done() is the value the subclass reports.
 */
module Behaviors {
  import opened Wrappers
  import opened Contexts

  /** BehaviorState */
  datatype BehaviorState = READY | RUNNING

  /** What executeBehavior sets in motion, in order. */
  datatype Event =
    | Changed(listener: AgentId, from: BehaviorState, to: BehaviorState)
    | OnStart
    | Action
    | OnEnd

  /** The fields of a behaviour, with the events so far. */
  datatype BehaviorView = BehaviorView(state: BehaviorState, parent: Option<AgentId>,
                                       listener: Option<AgentId>, agent: AgentId, log: seq<Event>)

  /**
   * executeBehavior: nothing while RUNNING; otherwise the listener hears of
   * the change to RUNNING, the state becomes RUNNING, and the three hooks
   * run; a done behaviour then reports a change back to READY but stays
   * RUNNING.
   */
  function Execute(v: BehaviorView, done: bool): (r: BehaviorView)
    ensures r.state == RUNNING
    ensures r.parent == v.parent && r.listener == v.listener && r.agent == v.agent
    ensures v.log <= r.log
    ensures v.state == RUNNING ==> r == v
    ensures v.state == READY && v.listener.None? ==> r.log == v.log + [OnStart, Action, OnEnd]
  {
    if v.state == RUNNING then v
    else
      var before := if v.listener.Some? then [Changed(v.listener.value, v.state, RUNNING)] else [];
      var after := if done && v.listener.Some? then [Changed(v.listener.value, RUNNING, READY)] else [];
      var added := before + [OnStart, Action, OnEnd] + after;
      v.(state := RUNNING, log := v.log + added)
  }

  /** The state never returns to READY, so a second execution does nothing. */
  lemma ExecuteRunsOnce(v: BehaviorView, done1: bool, done2: bool)
    ensures Execute(Execute(v, done1), done2) == Execute(v, done1)
  {
  }

  /** The hooks run in the order onStart, action, onEnd, after any notice of RUNNING. */
  lemma ExecuteOrder(v: BehaviorView, done: bool)
    requires v.state == READY
    ensures var added := Execute(v, done).log[|v.log|..];
            var k := if v.listener.Some? then 1 else 0;
            |added| >= k + 3 && added[k] == OnStart && added[k + 1] == Action && added[k + 2] == OnEnd &&
            (v.listener.Some? ==> added[0] == Changed(v.listener.value, READY, RUNNING))
  {
    var before := if v.listener.Some? then [Changed(v.listener.value, v.state, RUNNING)] else [];
    var after := if done && v.listener.Some? then [Changed(v.listener.value, RUNNING, READY)] else [];
    assert Execute(v, done).log[|v.log|..] == before + [OnStart, Action, OnEnd] + after;
  }

  /**
   * setParent: the parent is recorded; a present parent's agent becomes the
   * owner and the listener, and an absent one changes nothing else.
   */
  function SetParent(v: BehaviorView, parentAgent: Option<AgentId>): (r: BehaviorView)
    ensures r.parent == parentAgent && r.state == v.state && r.log == v.log
    ensures parentAgent.None? ==> r.agent == v.agent && r.listener == v.listener
    ensures parentAgent.Some? ==> r.agent == parentAgent.value && r.listener == Some(r.agent)
  {
    if parentAgent.Some? then v.(parent := parentAgent, agent := parentAgent.value, listener := Some(parentAgent.value))
    else v.(parent := None)
  }

  /** A behaviour with a parent notifies its owner when it runs. */
  lemma ParentHearsOfRunning(v: BehaviorView, owner: AgentId, done: bool)
    requires v.state == READY
    ensures Execute(SetParent(v, Some(owner)), done).log[|v.log|] == Changed(owner, READY, RUNNING)
  {
    ExecuteOrder(SetParent(v, Some(owner)), done);
  }

  class Behavior {
    var state: BehaviorState
    /** The agent of the parent composite behaviour, when there is one. */
    var parent: Option<AgentId>
    var listener: Option<AgentId>
    var agent: AgentId
    var log: seq<Event>

    function ViewOf(): BehaviorView
      reads this
    {
      BehaviorView(state, parent, listener, agent, log)
    }

    constructor (owner: AgentId)
      ensures ViewOf() == BehaviorView(READY, None, None, owner, [])
    {
      parent := None;
      listener := None;
      state := READY;
      agent := owner;
      log := [];
    }

    method SetParentOf(parentAgent: Option<AgentId>)
      modifies this
      ensures ViewOf() == SetParent(old(ViewOf()), parentAgent)
    {
      parent := parentAgent;
      if parent.Some? {
        agent := parent.value;
        listener := Some(agent);
      }
    }

    /** executeBehavior; `done` is what the subclass's done() answers. */
    method ExecuteBehavior(done: bool)
      modifies this
      ensures ViewOf() == Execute(old(ViewOf()), done)
    {
      if state == RUNNING {
        return;
      }
      ghost var v := ViewOf();
      var added: seq<Event> := [];
      if listener.Some? {
        added := added + [Changed(listener.value, state, RUNNING)];
      }
      state := RUNNING;
      added := added + [OnStart, Action, OnEnd];
      if done && listener.Some? {
        added := added + [Changed(listener.value, state, READY)];
      }
      log := log + added;
      assert ViewOf() == Execute(v, done);
    }
  }
}
