/** The control queue on a thread of its own: a pump receives, hands one message over a one-slot channel, and
    applies the agent's decision, which comes back over another. One step is one channel operation or one
    call on the queue. */
module Pump {
  import opened Wrappers
  import Q = SessionQueue
  import L = SessionLaws

  datatype Item = Event(m: Q.Id) | Refusal

  datatype Decision = AcknowledgeIt | LeaveIt(timeout: nat)

  datatype Pc =
    | Receiving
    | Handing(m: Q.Id)
    | Waiting(m: Q.Id)
    | Applying(m: Q.Id, d: Decision)
    | HandingRefusal
    | Stopped

  datatype Agent = Away | Holds(m: Q.Id) | Raised

  datatype Decided = Decided(m: Q.Id, d: Decision)

  /** History: what the agent was given, what it decided, and what the pump applied. */
  datatype System = System(
    queue: Q.World, pump: Pc, handed: Option<Item>, decisions: Option<Decision>, agent: Agent,
    given: seq<Q.Id>, decided: seq<Decided>, applied: seq<Decided>)

  datatype Action =
    | Outside(e: Q.Event)                                  // a send, or time passing
    | PumpReceives(accept: Option<Q.Session>, arrives: bool)
    | PumpHands
    | PumpTakesDecision
    | PumpApplies
    | PumpRefused                                          // the queue raised
    | PumpHandsRefusal
    | PumpStops
    | AgentTakes
    | AgentDecides(d: Decision)

  function InnerEvent(d: Decision): Q.Event
  {
    match d
    case AcknowledgeIt => Q.Acknowledges
    case LeaveIt(timeout) => Q.Leaves(timeout)
  }

  /** A put on a full channel, or a get from an empty one, blocks: it cannot be done. */
  predicate CanDo(s: System, a: Action)
  {
    match a
    case Outside(e) => e.Sends? || e.Tick?
    case PumpReceives(_, _) => s.pump.Receiving?
    case PumpHands => s.pump.Handing? && s.handed.None?
    case PumpTakesDecision => s.pump.Waiting? && s.decisions.Some?
    case PumpApplies => s.pump.Applying?
    case PumpRefused => s.pump.Receiving? || s.pump.Applying?
    case PumpHandsRefusal => s.pump.HandingRefusal? && s.handed.None?
    case PumpStops => s.pump.Receiving?
    case AgentTakes => s.agent.Away? && s.handed.Some?
    case AgentDecides(_) => s.agent.Holds? && s.decisions.None?
  }

  /** The call an action makes on the queue, if any. */
  function Call(s: System, a: Action): Option<Q.Event>
  {
    match a
    case Outside(e) => Some(e)
    case PumpReceives(accept, arrives) => Some(Q.Receives(accept, arrives))
    case PumpApplies => if s.pump.Applying? then Some(InnerEvent(s.pump.d)) else None
    case _ => None
  }

  /** The queue's own rule: each message is decided on before the next receive. */
  predicate Disciplined(s: System, a: Action)
  {
    Call(s, a).Some? ==> Q.CanDo(s.queue, Call(s, a).value)
  }

  function Called(s: System, a: Action): Q.World
  {
    if Call(s, a).Some? && Disciplined(s, a) then Q.Step(s.queue, Call(s, a).value) else s.queue
  }

  function Step(s: System, a: Action): System
    requires CanDo(s, a)
  {
    var v := s.(queue := Called(s, a));
    match a
    case Outside(_) => v
    case PumpReceives(_, _) => if v.queue.hand.Some? then v.(pump := Handing(v.queue.hand.value.message)) else v
    case PumpHands => v.(pump := Waiting(s.pump.m), handed := Some(Event(s.pump.m)))
    case PumpTakesDecision => v.(pump := Applying(s.pump.m, s.decisions.value), decisions := None)
    case PumpApplies => v.(pump := Receiving, applied := s.applied + [Decided(s.pump.m, s.pump.d)])
    case PumpRefused => v.(pump := HandingRefusal)
    case PumpHandsRefusal => v.(pump := Stopped, handed := Some(Refusal))
    case PumpStops => v.(pump := Stopped)
    case AgentTakes =>
      if s.handed.value.Refusal? then v.(handed := None, agent := Raised)
      else v.(handed := None, agent := Holds(s.handed.value.m), given := s.given + [s.handed.value.m])
    case AgentDecides(d) => v.(agent := Away, decisions := Some(d), decided := s.decided + [Decided(s.agent.m, d)])
  }

  predicate Init(s: System)
  {
    && Q.Init(s.queue) && s.pump.Receiving? && s.handed.None? && s.decisions.None? && s.agent.Away?
    && s.given == [] && s.decided == [] && s.applied == []
  }

  // ---------- what every step keeps ----------

  predicate InQueuesHand(s: System, m: Q.Id)
  {
    s.queue.hand.Some? && s.queue.hand.value.message == m
  }

  function Messages(ds: seq<Decided>): seq<Q.Id>
  {
    seq(|ds|, i requires 0 <= i < |ds| => ds[i].m)
  }

  /** Both channels are empty and the agent has nothing. */
  predicate Quiet(s: System)
  {
    s.handed.None? && s.decisions.None? && s.agent.Away? && s.given == Messages(s.decided)
  }

  predicate Inv(s: System)
  {
    match s.pump
    case Receiving => Quiet(s) && s.decided == s.applied && s.queue.hand.None?
    case Handing(m) => Quiet(s) && s.decided == s.applied && InQueuesHand(s, m)
    case Waiting(m) => InQueuesHand(s, m) && OneAtATime(s, m)
    case Applying(m, d) => InQueuesHand(s, m) && Quiet(s) && s.decided == s.applied + [Decided(m, d)]
    case HandingRefusal => Quiet(s) && s.applied <= s.decided && |s.decided| <= |s.applied| + 1
    case Stopped =>
      s.applied <= s.decided && |s.decided| <= |s.applied| + 1 && s.decisions.None? && s.given == Messages(s.decided) && !s.agent.Holds?
      && (s.handed.Some? ==> s.handed.value.Refusal?) && (s.agent.Raised? ==> s.handed.None?)
  }

  /** The message is on its way to the agent, in its hand, or decided and on its way back. */
  predicate OneAtATime(s: System, m: Q.Id)
  {
    || (s.handed == Some(Event(m)) && s.agent.Away? && s.decisions.None? && s.decided == s.applied && s.given == Messages(s.decided))
    || (s.handed.None? && s.agent == Holds(m) && s.decisions.None? && s.decided == s.applied && s.given == Messages(s.decided) + [m])
    || (s.handed.None? && s.agent.Away? && s.decisions.Some? && s.decided == s.applied + [Decided(m, s.decisions.value)]
        && s.given == Messages(s.decided))
  }

  /** Every call the pump makes obeys the queue's rule. */
  lemma PumpIsDisciplined(s: System, a: Action)
    requires Inv(s) && CanDo(s, a)
    ensures Disciplined(s, a)
  {
  }

  lemma MessagesAppend(ds: seq<Decided>, d: Decided)
    ensures Messages(ds + [d]) == Messages(ds) + [d.m]
  {
  }

  lemma StepInv(s: System, a: Action)
    requires Inv(s) && CanDo(s, a)
    ensures Inv(Step(s, a))
  {
    match a
    case AgentDecides(d) => MessagesAppend(s.decided, Decided(s.agent.m, d));
    case AgentTakes =>
    case PumpTakesDecision =>
    case _ =>
  }

  // ---------- over every run ----------

  ghost predicate Run(ss: seq<System>, acts: seq<Action>)
  {
    && |ss| == |acts| + 1 && Init(ss[0])
    && forall i {:trigger acts[i]} | 0 <= i < |acts| ::
         CanDo(ss[i], acts[i]) && ss[i + 1] == Step(ss[i], acts[i])
  }

  lemma {:induction false} RunInv(ss: seq<System>, acts: seq<Action>, i: nat)
    requires Run(ss, acts) && i < |ss|
    ensures Inv(ss[i])
    decreases i
  {
    if i > 0 {
      RunInv(ss, acts, i - 1);
      var a := acts[i - 1];
      StepInv(ss[i - 1], a);
    }
  }

  /** The pump refines the direct queue: with the steps that make no call left out, what its calls do to the
      queue is a run of the queue with an agent that decides before it receives. */
  lemma {:induction false} ThePumpRefinesTheQueue(ss: seq<System>, acts: seq<Action>, i: nat) returns (ws: seq<Q.World>, es: seq<Q.Event>)
    requires Run(ss, acts) && i < |ss|
    ensures L.Run(ws, es) && ws[|es|] == ss[i].queue && |es| <= i
    decreases i
  {
    if i == 0 {
      ws, es := [ss[0].queue], [];
    } else {
      var a := acts[i - 1];
      ws, es := ThePumpRefinesTheQueue(ss, acts, i - 1);
      RunInv(ss, acts, i - 1);
      PumpIsDisciplined(ss[i - 1], a);
      if Call(ss[i - 1], a).Some? {
        ws, es := ws + [ss[i].queue], es + [Call(ss[i - 1], a).value];
      }
    }
  }

  /** Decisions pair one to one and in order with messages: the pump applies to each message the decision the
      agent made on that message, and the agent has decided on every message it was given but at most the last. */
  lemma DecisionsPairWithMessages(ss: seq<System>, acts: seq<Action>, i: nat)
    requires Run(ss, acts) && i < |ss|
    ensures ss[i].applied <= ss[i].decided && |ss[i].decided| <= |ss[i].applied| + 1
    ensures Messages(ss[i].decided) <= ss[i].given && |ss[i].given| <= |ss[i].decided| + 1
    ensures ss[i].pump.Applying? ==> InQueuesHand(ss[i], ss[i].pump.m)
    ensures ss[i].pump.Applying? ==> ss[i].decided == ss[i].applied + [Decided(ss[i].pump.m, ss[i].pump.d)]
  {
    RunInv(ss, acts, i);
  }

  /** A put never blocks: whenever the agent decides, and whenever the pump hands over, the slot is free. */
  lemma NoPutBlocks(ss: seq<System>, acts: seq<Action>, i: nat)
    requires Run(ss, acts) && i < |ss|
    ensures ss[i].agent.Holds? ==> forall d :: CanDo(ss[i], AgentDecides(d))
    ensures ss[i].pump.Handing? ==> CanDo(ss[i], PumpHands)
    ensures ss[i].pump.HandingRefusal? ==> CanDo(ss[i], PumpHandsRefusal)
  {
    RunInv(ss, acts, i);
  }

  /** The agent behind the pump keeps the order of each session: all before the message it holds is settled. */
  lemma TheAgentSeesNoOvertaking(ss: seq<System>, acts: seq<Action>, i: nat, k: nat)
    requires Run(ss, acts) && i < |ss| && ss[i].agent.Holds? && k < ss[i].agent.m.index
    ensures Q.Id(ss[i].agent.m.session, k) in ss[i].queue.q.broker.fates
  {
    RunInv(ss, acts, i);
    var ws, es := ThePumpRefinesTheQueue(ss, acts, i);
    var m := ss[i].agent.m;
    L.RunInv(ws, es, |es|);
    assert L.ClaimOk(ws[|es|], ws[|es|].hand.value);
    L.NothingOvertakes(ws, es, |es|, m, k);
  }
}
