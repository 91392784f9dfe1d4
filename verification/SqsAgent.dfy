/** The resident agent's calls on pumped queues: every ReceiveMessage and DeleteMessage is, on its queue, what
    the pump's agent does, a decision on each message before the next is taken. */
module SqsAgent {
  import opened Wrappers
  import Q = SessionQueue
  import P = Pump
  import S = ServiceBusSqs

  /** What the calls keep, and each queue with its pump. `receiving` is the address whose receive is under
      way. Calls come one at a time. */
  datatype Client = Client(held: map<S.Handle, S.Held>, queues: map<S.Address, P.System>, receiving: Option<S.Address>)

  datatype Step =
    | Pumps(address: S.Address, a: P.Action)                             // the pump, the broker or time moves
    | Begins(address: S.Address)                                         // receive_message is called
    | LeavesOne(address: S.Address, handle: S.Handle)                    // its loop leaves one message held
    | Takes(address: S.Address, timeout: nat, handle: S.Handle)          // the queue gives an item
    | TakesNothing(address: S.Address)                                   // the wait ran out
    | Deletes(address: S.Address, handle: S.Handle)                      // delete_message

  predicate HeldFor(held: map<S.Handle, S.Held>, handle: S.Handle, address: S.Address)
  {
    handle in held && held[handle].address == address
  }

  /** What the program lets happen next, whether or not a channel would block. */
  predicate CanStep(c: Client, e: Step)
  {
    e.address in c.queues &&
    match e
    case Pumps(address, a) => !a.AgentTakes? && !a.AgentDecides? && P.CanDo(c.queues[address], a)
    case Begins(_) => c.receiving.None?
    case LeavesOne(address, handle) => c.receiving == Some(address) && HeldFor(c.held, handle, address)
    case Takes(address, _, handle) =>
      c.receiving == Some(address) && S.LeftBy(c.held, address) == map[] && c.queues[address].handed.Some? && handle !in c.held
    case TakesNothing(address) => c.receiving == Some(address) && S.LeftBy(c.held, address) == map[]
    case Deletes(_, _) => c.receiving.None?
  }

  /** The action a step is on its queue, if it is any. */
  function ActionOf(c: Client, e: Step): Option<P.Action>
    requires CanStep(c, e)
  {
    match e
    case Pumps(_, a) => Some(a)
    case Begins(_) => None
    case LeavesOne(_, handle) => Some(P.AgentDecides(P.LeaveIt(c.held[handle].timeout)))
    case Takes(_, _, _) => Some(P.AgentTakes)
    case TakesNothing(_) => None
    case Deletes(address, handle) => if HeldFor(c.held, handle, address) then Some(P.AgentDecides(P.AcknowledgeIt)) else None
  }

  predicate Blocks(c: Client, e: Step)
    requires CanStep(c, e)
  {
    ActionOf(c, e).Some? && !P.CanDo(c.queues[e.address], ActionOf(c, e).value)
  }

  function HeldAfter(c: Client, e: Step): map<S.Handle, S.Held>
    requires CanStep(c, e)
  {
    match e
    case LeavesOne(_, handle) => c.held - {handle}
    case Takes(address, timeout, handle) =>
      var item := c.queues[address].handed.value;
      if item.Event? then c.held[handle := S.Held(address, item.m, timeout)] else c.held
    case Deletes(address, handle) => S.AfterCall(c.held, S.Delete(address, handle))
    case _ => c.held
  }

  function After(c: Client, e: Step): Client
    requires CanStep(c, e)
  {
    var queues :=
      if ActionOf(c, e).None? || Blocks(c, e) then c.queues
      else c.queues[e.address := P.Step(c.queues[e.address], ActionOf(c, e).value)];
    Client(HeldAfter(c, e), queues,
           if e.Begins? then Some(e.address) else if e.Takes? || e.TakesNothing? then None else c.receiving)
  }

  ghost predicate Init(c: Client)
  {
    c.held == map[] && c.receiving.None? && forall a | a in c.queues :: P.Init(c.queues[a])
  }

  // ---------- what every step keeps ----------

  /** Exactly the message held under a handle for a queue is in the hand of that queue's agent. */
  ghost predicate InHand(held: map<S.Handle, S.Held>, a: S.Address, agent: P.Agent)
  {
    && (forall h | HeldFor(held, h, a) :: agent == P.Holds(held[h].message))
    && (agent.Holds? ==> exists h :: HeldFor(held, h, a))
  }

  ghost predicate QueueOk(c: Client, a: S.Address)
    requires a in c.queues
  {
    P.Inv(c.queues[a]) && InHand(c.held, a, c.queues[a].agent)
  }

  ghost predicate Inv(c: Client)
  {
    && S.OneEach(c.held) && (forall h | h in c.held :: c.held[h].address in c.queues)
    && (forall a | a in c.queues :: QueueOk(c, a))
  }

  /** No call ever blocks on its decision, and none takes what its agent could not. */
  lemma NoCallBlocks(c: Client, e: Step)
    requires Inv(c) && CanStep(c, e)
    ensures !Blocks(c, e)
  {
    assert QueueOk(c, e.address);
    if e.Takes? {
      HandedMayTake(c.queues[e.address]);
    } else if c.queues[e.address].agent.Holds? {
      HolderMayDecide(c.queues[e.address]);
    }
  }

  lemma HandedMayTake(s: P.System)
    requires P.Inv(s) && s.handed.Some?
    ensures P.CanDo(s, P.AgentTakes)
  {
  }

  lemma HolderMayDecide(s: P.System)
    requires P.Inv(s) && s.agent.Holds?
    ensures forall d :: P.CanDo(s, P.AgentDecides(d))
  {
  }

  function OwnQueueAfter(c: Client, e: Step): P.System
    requires CanStep(c, e) && !Blocks(c, e)
  {
    if ActionOf(c, e).Some? then P.Step(c.queues[e.address], ActionOf(c, e).value) else c.queues[e.address]
  }

  lemma ActionMovesItsQueue(c: Client, e: Step)
    requires CanStep(c, e) && !Blocks(c, e)
    ensures After(c, e).queues == c.queues[e.address := OwnQueueAfter(c, e)]
  {
    assert c.queues[e.address := c.queues[e.address]] == c.queues;
  }

  lemma ActionKeepsPump(c: Client, e: Step)
    requires Inv(c) && CanStep(c, e)
    ensures After(c, e).queues.Keys == c.queues.Keys && P.Inv(After(c, e).queues[e.address])
    ensures !Blocks(c, e) && After(c, e).queues[e.address] == OwnQueueAfter(c, e)
    ensures forall a | a in c.queues && a != e.address :: After(c, e).queues[a] == c.queues[a]
  {
    assert QueueOk(c, e.address);
    NoCallBlocks(c, e);
    ActionMovesItsQueue(c, e);
    if ActionOf(c, e).Some? { P.StepInv(c.queues[e.address], ActionOf(c, e).value); }
  }

  lemma OneEachStays(c: Client, e: Step)
    requires Inv(c) && CanStep(c, e)
    ensures S.OneEach(HeldAfter(c, e)) && forall h | h in HeldAfter(c, e) :: HeldAfter(c, e)[h].address in c.queues
  {
    if e.Takes? { NothingHeld(c.held, e.address); }
  }

  lemma NothingHeld(held: map<S.Handle, S.Held>, a: S.Address)
    requires S.LeftBy(held, a) == map[]
    ensures forall h | h in held :: held[h].address != a
  {
    forall h | h in held ensures held[h].address != a { assert h !in S.LeftBy(held, a); }
  }

  lemma OnlyTheAgentMovesItself(s: P.System, a: P.Action)
    requires P.CanDo(s, a) && !a.AgentTakes? && !a.AgentDecides?
    ensures P.Step(s, a).agent == s.agent
  {
  }

  /** What is decided on leaves the hand. */
  lemma DecidedLeavesTheHand(held: map<S.Handle, S.Held>, handle: S.Handle, a: S.Address)
    requires S.OneEach(held) && HeldFor(held, handle, a)
    ensures InHand(held - {handle}, a, P.Away)
  {
  }

  lemma TakenIsInHand(held: map<S.Handle, S.Held>, handle: S.Handle, taken: S.Held)
    requires S.LeftBy(held, taken.address) == map[] && handle !in held
    ensures InHand(held[handle := taken], taken.address, P.Holds(taken.message))
  {
    NothingHeld(held, taken.address);
    assert HeldFor(held[handle := taken], handle, taken.address);
  }

  lemma SameHeldSameHand(held: map<S.Handle, S.Held>, held': map<S.Handle, S.Held>, a: S.Address, agent: P.Agent)
    requires InHand(held, a, agent) && forall h :: HeldFor(held', h, a) <==> HeldFor(held, h, a)
    requires forall h | HeldFor(held, h, a) && h in held' :: held'[h] == held[h]
    ensures InHand(held', a, agent)
  {
    if agent.Holds? {
      var h :| HeldFor(held, h, a);
      assert HeldFor(held', h, a);
    }
  }

  lemma TheAgentTakes(s: P.System)
    requires P.CanDo(s, P.AgentTakes)
    ensures P.Step(s, P.AgentTakes).agent == if s.handed.value.Event? then P.Holds(s.handed.value.m) else P.Raised
  {
  }

  lemma TheAgentDecides(s: P.System, d: P.Decision)
    requires P.CanDo(s, P.AgentDecides(d))
    ensures P.Step(s, P.AgentDecides(d)).agent == P.Away
  {
  }

  lemma OwnHandTakes(c: Client, e: Step)
    requires CanStep(c, e) && e.Takes? && P.CanDo(c.queues[e.address], P.AgentTakes)
    ensures InHand(HeldAfter(c, e), e.address, P.Step(c.queues[e.address], P.AgentTakes).agent)
  {
    TheAgentTakes(c.queues[e.address]);
    var item := c.queues[e.address].handed.value;
    if item.Event? { TakenIsInHand(c.held, e.handle, S.Held(e.address, item.m, e.timeout)); } else { NothingHeld(c.held, e.address); }
  }

  lemma OwnHandDecides(c: Client, e: Step, d: P.Decision)
    requires Inv(c) && CanStep(c, e) && ActionOf(c, e) == Some(P.AgentDecides(d)) && P.CanDo(c.queues[e.address], P.AgentDecides(d))
    ensures InHand(HeldAfter(c, e), e.address, P.Step(c.queues[e.address], P.AgentDecides(d)).agent)
  {
    TheAgentDecides(c.queues[e.address], d);
    DecidedLeavesTheHand(c.held, e.handle, e.address);
  }

  lemma OwnHandStays(c: Client, e: Step)
    requires Inv(c) && CanStep(c, e)
    ensures e.address in After(c, e).queues && InHand(HeldAfter(c, e), e.address, After(c, e).queues[e.address].agent)
  {
    ActionKeepsPump(c, e);
    NoCallBlocks(c, e);
    assert QueueOk(c, e.address);
    match e
    case Takes(_, _, _) => OwnHandTakes(c, e);
    case LeavesOne(_, handle) => OwnHandDecides(c, e, P.LeaveIt(c.held[handle].timeout));
    case Deletes(_, handle) => if HeldFor(c.held, handle, e.address) { OwnHandDecides(c, e, P.AcknowledgeIt); }
    case Pumps(_, a) => OnlyTheAgentMovesItself(c.queues[e.address], a);
    case _ =>
  }

  lemma OtherHandsStay(c: Client, e: Step, a: S.Address)
    requires Inv(c) && CanStep(c, e) && a in c.queues && a != e.address
    ensures InHand(HeldAfter(c, e), a, c.queues[a].agent)
  {
    assert QueueOk(c, a);
    SameHeldSameHand(c.held, HeldAfter(c, e), a, c.queues[a].agent);
  }

  lemma StepInv(c: Client, e: Step)
    requires Inv(c) && CanStep(c, e)
    ensures Inv(After(c, e))
  {
    ActionKeepsPump(c, e);
    OneEachStays(c, e);
    forall a | a in After(c, e).queues ensures QueueOk(After(c, e), a) {
      assert QueueOk(c, a);
      if a == e.address { OwnHandStays(c, e); } else { OtherHandsStay(c, e, a); }
    }
  }

  // ---------- over every run ----------

  ghost predicate Run(cs: seq<Client>, es: seq<Step>)
  {
    && |cs| == |es| + 1 && Init(cs[0])
    && forall i {:trigger es[i]} | 0 <= i < |es| :: CanStep(cs[i], es[i]) && cs[i + 1] == After(cs[i], es[i])
  }

  lemma {:induction false} RunInv(cs: seq<Client>, es: seq<Step>, i: nat)
    requires Run(cs, es) && i < |cs|
    ensures Inv(cs[i]) && cs[i].queues.Keys == cs[0].queues.Keys
    decreases i
  {
    if i > 0 {
      RunInv(cs, es, i - 1);
      var e := es[i - 1];
      StepInv(cs[i - 1], e);
      ActionKeepsPump(cs[i - 1], e);
    }
  }

  /** The actions the first i steps are on one queue, in order. */
  ghost function ActionsOn(cs: seq<Client>, es: seq<Step>, i: nat, a: S.Address): seq<P.Action>
    requires Run(cs, es) && i < |cs|
    decreases i
  {
    if i == 0 then []
    else
      var before := ActionsOn(cs, es, i - 1, a);
      var e := es[i - 1];
      if e.address == a && ActionOf(cs[i - 1], e).Some? then before + [ActionOf(cs[i - 1], e).value] else before
  }

  /** A run of the pump and its agent, from one state to another by these actions. */
  ghost predicate Leads(ss: seq<P.System>, acts: seq<P.Action>, from: P.System, to: P.System)
  {
    P.Run(ss, acts) && ss[0] == from && ss[|acts|] == to
  }

  lemma TheRunStarts(c: Client, a: S.Address)
    requires Init(c) && a in c.queues
    ensures Leads([c.queues[a]], [], c.queues[a], c.queues[a])
  {
  }

  lemma OneActionMore(ss: seq<P.System>, acts: seq<P.Action>, from: P.System, to: P.System, a: P.Action)
    requires Leads(ss, acts, from, to) && P.CanDo(to, a)
    ensures Leads(ss + [P.Step(to, a)], acts + [a], from, P.Step(to, a))
  {
  }

  lemma OneCallMore(cs: seq<Client>, es: seq<Step>, i: nat, a: S.Address)
    requires Run(cs, es) && i < |es| && a in cs[i].queues
    ensures a in cs[i + 1].queues && !Blocks(cs[i], es[i])
    ensures cs[i + 1].queues[a] == if es[i].address == a then OwnQueueAfter(cs[i], es[i]) else cs[i].queues[a]
  {
    RunInv(cs, es, i);
    ActionKeepsPump(cs[i], es[i]);
  }

  lemma TheRunGoesOn(cs: seq<Client>, es: seq<Step>, i: nat, a: S.Address, from: P.System, ss: seq<P.System>)
      returns (more: seq<P.System>)
    requires Run(cs, es) && i < |es| && a in cs[i].queues && Leads(ss, ActionsOn(cs, es, i, a), from, cs[i].queues[a])
    ensures a in cs[i + 1].queues && Leads(more, ActionsOn(cs, es, i + 1, a), from, cs[i + 1].queues[a])
  {
    OneCallMore(cs, es, i, a);
    if es[i].address == a && ActionOf(cs[i], es[i]).Some? {
      OneActionMore(ss, ActionsOn(cs, es, i, a), from, cs[i].queues[a], ActionOf(cs[i], es[i]).value);
      more := ss + [cs[i + 1].queues[a]];
    } else {
      more := ss;
    }
  }

  /** Whatever calls are made, on any queues: the actions they are on each queue, with what its pump does
      meanwhile, are a run of the pump and its agent from first to last. There a deletion acknowledges the
      message in hand, the next receive leaves it, and nothing is taken before. */
  lemma {:induction false} TheCallsAreARunOfTheAgent(cs: seq<Client>, es: seq<Step>, i: nat, a: S.Address) returns (ss: seq<P.System>)
    requires Run(cs, es) && i < |cs| && a in cs[0].queues
    ensures a in cs[i].queues && Leads(ss, ActionsOn(cs, es, i, a), cs[0].queues[a], cs[i].queues[a])
    decreases i
  {
    if i == 0 {
      ss := [cs[0].queues[a]];
      TheRunStarts(cs[0], a);
    } else {
      ss := TheCallsAreARunOfTheAgent(cs, es, i - 1, a);
      ss := TheRunGoesOn(cs, es, i - 1, a, cs[0].queues[a], ss);
    }
  }

  /** So a message the agent holds under a handle has every earlier message of its session settled. */
  lemma NothingHeldOvertakes(cs: seq<Client>, es: seq<Step>, i: nat, h: S.Handle, k: nat)
    requires Run(cs, es) && i < |cs| && h in cs[i].held && k < cs[i].held[h].message.index
    ensures cs[i].held[h].address in cs[i].queues
    ensures Q.Id(cs[i].held[h].message.session, k) in cs[i].queues[cs[i].held[h].address].queue.q.broker.fates
  {
    var a := cs[i].held[h].address;
    RunInv(cs, es, i);
    var ss := TheCallsAreARunOfTheAgent(cs, es, i, a);
    assert QueueOk(cs[i], a) && HeldFor(cs[i].held, h, a);
    P.TheAgentSeesNoOvertaking(ss, ActionsOn(cs, es, i, a), |ss| - 1, k);
  }

  // ---------- the steps are the calls ----------

  lemma LeavingTheOne(held: map<S.Handle, S.Held>, handle: S.Handle, a: S.Address)
    requires S.OneEach(held) && HeldFor(held, handle, a)
    ensures S.LeftBy(held, a).Keys == {handle} && S.LeftBy(held - {handle}, a) == map[]
  {
  }

  /** Leaving first and then taking is what one receive does to what is held. */
  lemma AReceiveLeavesThenTakes(c: Client, e: Step, timeout: nat, received: Option<S.Message>, handle: S.Handle)
    requires Inv(c) && CanStep(c, e) && e.LeavesOne?
    ensures S.LeftBy(After(c, e).held, e.address) == map[]
    ensures var call := S.Receive(e.address, timeout, received, handle); S.AfterCall(After(c, e).held, call) == S.AfterCall(c.held, call)
  {
    LeavingTheOne(c.held, e.handle, e.address);
  }

  /** And with nothing left held the taking is that receive. */
  lemma TakingIsTheReceive(c: Client, e: Step)
    requires CanStep(c, e) && e.Takes? && c.queues[e.address].handed.value.Event?
    ensures After(c, e).held == S.AfterCall(c.held, S.Receive(e.address, e.timeout, Some(c.queues[e.address].handed.value.m), e.handle))
  {
    assert S.LeftBy(c.held, e.address).Keys == {};
  }
}
