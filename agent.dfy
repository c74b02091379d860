/**
 * The base agent (src/agent/base/Agent.java): its ledger of confidence in
 * neighbour agents, its perception list, and one pass of its reasoning cycle.
 * Agents are told apart by their name alone; the class comparison of
 * Agent.equals is not modelled.
 */
module Agents {
  import opened Wrappers
  import opened Numeric
  import opened ContextEntries
  import opened Contexts

  const ConfidenceDelta: real := 0.1
  const MaxConfidence: real := 1.0
  const MinConfidence: real := 0.0

  /** AgentReasoningProgress */
  datatype Progress = IDLE | READY | PERCEIVE_OK | ABORT

  function RMin(a: real, b: real): real { if a <= b then a else b }
  function RMax(a: real, b: real): real { if a >= b then a else b }

  /**
   * The confidence modifyConfidence stores for a known agent. A delta that
   * raises the value is added and capped at 1; any other delta is
   * SUBTRACTED and floored at 0, so a negative delta raises the confidence
   * with no cap.
   */
  function ConfidenceAfter(c: real, delta: real): (r: real)
    ensures delta > 0.0 ==> r <= MaxConfidence
    ensures delta > 0.0 && c <= MaxConfidence ==> c <= r
    ensures delta <= 0.0 ==> MinConfidence <= r && c <= r
    ensures MinConfidence <= c ==> MinConfidence <= r
  {
    if c + delta > c then RMin(c + delta, MaxConfidence) else RMax(c - delta, MinConfidence)
  }

  /** A negative delta raises the confidence by its size: 0.5 with -0.1 becomes 0.6. */
  lemma NegativeDeltaRaisesConfidence(c: real, delta: real)
    requires delta < 0.0 && MinConfidence <= c
    ensures ConfidenceAfter(c, delta) == c - delta > c
  {
  }

  /** Example, beside NegativeDeltaRaisesConfidence: 0.5 becomes 0.6 and 1 goes above MAX_CONFIDENCE. */
  lemma NegativeDeltaExample()
    ensures ConfidenceAfter(0.5, -ConfidenceDelta) == 0.6
    ensures ConfidenceAfter(1.0, -ConfidenceDelta) == 1.1
  {
  }

  /** A positive delta keeps a value of [0, 1] inside [0, 1]. */
  lemma PositiveDeltaStaysInRange(c: real, delta: real)
    requires delta > 0.0 && MinConfidence <= c <= MaxConfidence
    ensures MinConfidence <= ConfidenceAfter(c, delta) <= MaxConfidence
    ensures ConfidenceAfter(c, delta) == RMin(c + delta, MaxConfidence)
  {
  }

  /** What one pass of reasoningCycleMain did: the new progress, and whether perceive and decideAndAct ran. */
  datatype TickOutcome = TickOutcome(progress: Progress, perceived: bool, acted: bool)

  /**
   * One pass of reasoningCycleMain once the interval has elapsed. The
   * subclass's perceive and decideAndAct are represented by whether each
   * calls abortReasoning.
   */
  function Tick(p: Progress, paused: bool, perceiveAborts: bool, actAborts: bool): (t: TickOutcome)
    ensures t.progress != PERCEIVE_OK
    ensures p == IDLE ==> t == TickOutcome(IDLE, false, false)
    ensures t.acted ==> (t.progress == ABORT <==> actAborts)
    ensures t.perceived && perceiveAborts ==> t == TickOutcome(ABORT, true, false)
  {
    if p == IDLE then TickOutcome(IDLE, false, false)
    else
      var p1 := if p == ABORT then READY else p;
      if p1 == READY && perceiveAborts then TickOutcome(ABORT, true, false)
      else
        var perceived := p1 == READY;
        if actAborts then TickOutcome(ABORT, perceived, true)
        else TickOutcome(if paused then IDLE else READY, perceived, true)
  }

  /** An aborted pass is retried: from ABORT, a pass without aborts perceives and acts. */
  lemma AbortIsRetried(paused: bool)
    ensures Tick(ABORT, paused, false, false) == TickOutcome(if paused then IDLE else READY, true, true)
  {
  }

  /** From READY or ABORT, a pass ends in ABORT exactly when a stage it ran aborted. */
  lemma TickAbortsIffAStageAborts(p: Progress, paused: bool, perceiveAborts: bool, actAborts: bool)
    requires p == READY || p == ABORT
    ensures Tick(p, paused, perceiveAborts, actAborts).perceived
    ensures Tick(p, paused, perceiveAborts, actAborts).progress == ABORT <==> perceiveAborts || actAborts
    ensures Tick(p, paused, perceiveAborts, actAborts).acted <==> !perceiveAborts
  {
  }

  /** A paused agent whose pass succeeds stops in IDLE, and IDLE passes do nothing until it is resumed. */
  lemma PausedAgentGoesIdle(p: Progress)
    requires p != IDLE
    ensures Tick(p, true, false, false).progress == IDLE
    ensures Tick(Tick(p, true, false, false).progress, true, false, false) == TickOutcome(IDLE, false, false)
  {
  }

  class Agent {
    const name: AgentId
    var neighbors: map<AgentId, real>
    var progress: Progress
    var paused: bool
    var isActive: bool
    var perceptions: seq<Perception>

    /**
     * Agent(name, type): every agent already in the environment added as a
     * neighbour, no perceptions, not active, not paused, and IDLE.
     */
    constructor (name: AgentId, others: seq<AgentId>)
      ensures this.name == name && progress == IDLE && !paused && !isActive && perceptions == []
      ensures neighbors == map a | a in others && a != name :: 1.0
    {
      this.name := name;
      neighbors := map[];
      progress := IDLE;
      paused := false;
      isActive := false;
      perceptions := [];
      new;
      var i := 0;
      while i < |others|
        invariant 0 <= i <= |others|
        invariant neighbors == map a | a in others[..i] && a != name :: 1.0
        invariant progress == IDLE && !paused && !isActive && perceptions == []
      {
        var _ := AddNeighbor(others[i]);
        assert others[..i + 1] == others[..i] + [others[i]];
        i := i + 1;
      }
      assert others[..i] == others;
    }

    /** addNeighbor: itself and known agents are refused; others join with confidence 1. */
    method AddNeighbor(ag: AgentId) returns (added: bool)
      modifies this`neighbors
      ensures added <==> ag != name && ag !in old(neighbors)
      ensures neighbors == if added then old(neighbors)[ag := 1.0] else old(neighbors)
    {
      if ag == name || ag in neighbors {
        return false;
      }
      neighbors := neighbors[ag := 1.0];
      added := true;
    }

    /** getConfidence: 0 for an agent that is not a neighbour. */
    function GetConfidence(ag: AgentId): (r: real)
      reads this
      ensures ag !in neighbors ==> r == 0.0
      ensures ag in neighbors ==> r == neighbors[ag]
    {
      if ag in neighbors then neighbors[ag] else 0.0
    }

    /** dissociateFrom: NaN for an unknown agent, else its confidence, which is removed. */
    method DissociateFrom(ag: AgentId) returns (r: Double)
      modifies this`neighbors
      ensures ag !in old(neighbors) ==> r.NaN? && neighbors == old(neighbors)
      ensures ag in old(neighbors) ==> r == Finite(old(neighbors)[ag]) && neighbors == old(neighbors) - {ag}
    {
      if ag !in neighbors {
        return NaN;
      }
      r := Finite(neighbors[ag]);
      neighbors := neighbors - {ag};
    }

    /**
     * modifyConfidence: an unknown agent is inserted at 1 whatever the delta
     * and 1 is returned; a known one gets ConfidenceAfter and its previous
     * value is returned. No other entry changes.
     */
    method ModifyConfidence(ag: AgentId, delta: real) returns (previous: real)
      modifies this`neighbors
      ensures ag !in old(neighbors) ==> previous == 1.0 && neighbors == old(neighbors)[ag := 1.0]
      ensures ag in old(neighbors) ==> previous == old(neighbors)[ag]
      ensures ag in old(neighbors) ==> neighbors == old(neighbors)[ag := ConfidenceAfter(old(neighbors)[ag], delta)]
    {
      if ag !in neighbors {
        neighbors := neighbors[ag := 1.0];
        return 1.0;
      }
      previous := neighbors[ag];
      neighbors := neighbors[ag := ConfidenceAfter(previous, delta)];
    }

    /** setPerception: overwrite index idx when it exists, else append; a negative index fails. */
    method SetPerception(idx: int, p: Perception) returns (r: Result<()>)
      modifies this`perceptions
      ensures r.Err? <==> idx < 0
      ensures idx >= |old(perceptions)| ==> perceptions == old(perceptions) + [p]
      ensures 0 <= idx < |old(perceptions)| ==> perceptions == old(perceptions)[idx := p]
      ensures idx < 0 ==> perceptions == old(perceptions)
    {
      if idx >= |perceptions| {
        perceptions := perceptions + [p];
        return Ok(());
      }
      if idx < 0 {
        return Err("IndexOutOfBoundsException");
      }
      perceptions := perceptions[idx := p];
      r := Ok(());
    }

    method ResumeAgent()
      modifies this`progress, this`paused
      ensures progress == READY && !paused
    {
      progress := READY;
      paused := false;
    }

    method PauseAgent()
      modifies this`paused
      ensures paused
    {
      paused := true;
    }

    method StopAgent()
      modifies this`isActive
      ensures !isActive
    {
      isActive := false;
    }

    method AbortReasoning()
      modifies this`progress
      ensures progress == ABORT
    {
      progress := ABORT;
    }

    /** One pass of reasoningCycleMain: the progress field follows Tick. */
    method ReasoningTick(perceiveAborts: bool, actAborts: bool) returns (perceived: bool, acted: bool)
      modifies this`progress
      ensures progress == Tick(old(progress), paused, perceiveAborts, actAborts).progress
      ensures perceived == Tick(old(progress), paused, perceiveAborts, actAborts).perceived
      ensures acted == Tick(old(progress), paused, perceiveAborts, actAborts).acted
    {
      perceived, acted := false, false;
      if progress == IDLE {
        return;
      }
      if progress == ABORT {
        progress := READY;
      }
      if progress == READY {
        perceived := true;
        if perceiveAborts {
          progress := ABORT;
          return;
        }
        progress := PERCEIVE_OK;
      }
      if progress == PERCEIVE_OK {
        acted := true;
        if actAborts {
          progress := ABORT;
          return;
        }
        progress := if paused then IDLE else READY;
      }
    }
  }
}
