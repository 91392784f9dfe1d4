/** SQS's ReceiveMessage and DeleteMessage as the resident agent calls them, on session queues: a message
    still held at the next receive from its queue is one the agent left. */
module ServiceBusSqs {
  import opened Wrappers
  import Q = SessionQueue

  type Address = nat
  type Handle = nat
  type Message = Q.Id

  datatype Held = Held(address: Address, message: Message, timeout: nat)

  datatype Error = TakesOneAtATime | UnknownHandle

  /** What one receive decides first: every message held for that address is left. */
  function LeftBy(held: map<Handle, Held>, address: Address): (left: map<Handle, Held>)
  {
    map h | h in held && held[h].address == address :: held[h]
  }

  /** At most one message of each queue is held: every earlier one was deleted or left. */
  predicate OneEach(held: map<Handle, Held>)
  {
    forall h, k | h in held && k in held :: held[h].address == held[k].address ==> h == k
  }

  datatype Call = Receive(address: Address, timeout: nat, received: Option<Message>, handle: Handle) | Delete(address: Address, handle: Handle)

  /** The calls' effect on what is held. */
  function AfterCall(held: map<Handle, Held>, c: Call): map<Handle, Held>
  {
    match c
    case Receive(address, timeout, received, handle) =>
      var rest := held - LeftBy(held, address).Keys;
      if received.Some? then rest[handle := Held(address, received.value, timeout)] else rest
    case Delete(address, handle) => if handle in held && held[handle].address == address then held - {handle} else held
  }

  class Sqs {
    var held: map<Handle, Held>

    constructor ()
      ensures held == map[] && OneEach(held)
    {
      held := map[];
    }

    method LeaveHeld(address: Address) returns (left: map<Handle, Held>)
      modifies this
      ensures left == LeftBy(old(held), address) && held == old(held) - left.Keys
    {
      left := map[];
      var todo := LeftBy(held, address).Keys;
      while todo != {}
        invariant todo <= LeftBy(old(held), address).Keys && left.Keys == LeftBy(old(held), address).Keys - todo
        invariant forall h | h in left :: left[h] == old(held)[h]
        invariant held == old(held) - left.Keys
      {
        var handle :| handle in todo;
        left, held := left[handle := held[handle]], held - {handle};
        todo := todo - {handle};
      }
    }

    /** `received` is what the queue gives, once the held messages were left; `fresh` names it. */
    method ReceiveMessage(address: Address, count: nat, timeout: nat, received: Option<Message>, handle: Handle)
        returns (r: Result<map<Handle, Held>, Error>)
      requires OneEach(held) && handle !in held
      modifies this
      ensures OneEach(held)
      ensures count != 1 ==> r == Err(TakesOneAtATime) && held == old(held)
      ensures count == 1 ==> r == Ok(LeftBy(old(held), address))
      ensures count == 1 ==> held == AfterCall(old(held), Receive(address, timeout, received, handle))
      ensures count == 1 ==> forall h :: h in held && held[h].address == address <==> received.Some? && h == handle
    {
      if count != 1 { return Err(TakesOneAtATime); }
      var left := LeaveHeld(address);
      if received.Some? { held := held[handle := Held(address, received.value, timeout)]; }
      r := Ok(left);
    }

    /** The message is completed and its handle forgotten; a handle of another queue, or of none, is refused. */
    method DeleteMessage(address: Address, handle: Handle) returns (r: Result<Message, Error>)
      requires OneEach(held)
      modifies this
      ensures OneEach(held)
      ensures r.Ok? <==> handle in old(held) && old(held)[handle].address == address
      ensures r == if r.Ok? then Ok(old(held)[handle].message) else Err(UnknownHandle)
      ensures held == AfterCall(old(held), Delete(address, handle))
    {
      if handle !in held || held[handle].address != address { return Err(UnknownHandle); }
      r := Ok(held[handle].message);
      held := held - {handle};
    }
  }

  // ---------- one decision for each message ----------

  datatype Verdict = Acknowledged | LeftUndeleted

  /** The decision a call makes on the message under a handle, if any. */
  function VerdictOn(held: map<Handle, Held>, c: Call, h: Handle): Option<Verdict>
  {
    if h !in held || held[h].address != c.address then None
    else match c
      case Receive(_, _, _, _) => Some(LeftUndeleted)
      case Delete(_, handle) => if h == handle then Some(Acknowledged) else None
  }

  /** Calls with a fresh handle for every message received. */
  predicate Fresh(used: set<Handle>, cs: seq<Call>)
    decreases |cs|
  {
    cs == [] ||
    (if cs[0].Receive? then cs[0].handle !in used && Fresh(used + {cs[0].handle}, cs[1..]) else Fresh(used, cs[1..]))
  }

  /** The verdicts passed, over a run of calls, on the message under one handle. */
  function Verdicts(held: map<Handle, Held>, cs: seq<Call>, h: Handle): seq<Verdict>
    decreases |cs|
  {
    if cs == [] then []
    else (match VerdictOn(held, cs[0], h) case None => [] case Some(v) => [v]) + Verdicts(AfterCall(held, cs[0]), cs[1..], h)
  }

  function HeldAfter(held: map<Handle, Held>, cs: seq<Call>): map<Handle, Held>
    decreases |cs|
  {
    if cs == [] then held else HeldAfter(AfterCall(held, cs[0]), cs[1..])
  }

  /** A message held at the start of a run of calls is decided on exactly once, or is still held at its end;
      and one that is not held is not decided on under an old handle. */
  lemma {:induction false} DecidedExactlyOnce(held: map<Handle, Held>, used: set<Handle>, cs: seq<Call>, h: Handle)
    requires held.Keys <= used && h in used && Fresh(used, cs)
    ensures |Verdicts(held, cs, h)| == (if h in held && h !in HeldAfter(held, cs) then 1 else 0)
    ensures h !in held ==> h !in HeldAfter(held, cs)
    decreases |cs|
  {
    if cs != [] {
      var used' := if cs[0].Receive? then used + {cs[0].handle} else used;
      DecidedExactlyOnce(AfterCall(held, cs[0]), used', cs[1..], h);
    }
  }
}
