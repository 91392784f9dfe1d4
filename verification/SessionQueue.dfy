/** A lane's control queue: FIFO message groups emulated on broker sessions, with messages left undeleted
    held aside until they are due again, and dead-lettered after their last receive. */
module SessionQueue {
  import opened Wrappers

  const MAX_RECEIVES: nat := 3

  type Session = nat

  /** The `index`-th message sent in a session. */
  datatype Id = Id(session: Session, index: nat)

  datatype Fate = Completed | DeadLettered

  /** The broker: how many messages each session was sent, what became of them, which receiver has each
      session locked, and which messages were received under the present lock and not settled. */
  datatype Broker = Broker(sent: map<Session, nat>, fates: map<Id, Fate>, locks: map<Session, nat>, inFlight: set<Id>)

  datatype Receiver = Receiver(id: nat, session: Session)

  datatype HeldBack = HeldBack(receiver: Receiver, message: Id, receives: nat, due: int)

  /** A message the agent has in hand, with the receiver its decision goes to. */
  datatype Handed = Handed(receiver: Receiver, message: Id, receives: nat)

  datatype Queue = Queue(broker: Broker, receiver: Option<Receiver>, heldBack: seq<HeldBack>, nextId: nat)

  // ---------- the broker ----------

  predicate Exists(b: Broker, m: Id)
  {
    m.session in b.sent && m.index < b.sent[m.session]
  }

  /** The first message of the session, from `k` on, that is neither settled nor already received. */
  function NextFrom(b: Broker, s: Session, k: nat): Option<nat>
    requires s in b.sent
    decreases b.sent[s] - k
  {
    if k >= b.sent[s] then None
    else if Id(s, k) in b.fates || Id(s, k) in b.inFlight then NextFrom(b, s, k + 1)
    else Some(k)
  }

  function NextOf(b: Broker, s: Session): Option<nat>
  {
    if s in b.sent then NextFrom(b, s, 0) else None
  }

  /** A session that nothing holds and that has a message to give. */
  predicate Offered(b: Broker, s: Session)
  {
    s !in b.locks && NextOf(b, s).Some?
  }

  function Settle(b: Broker, m: Id, fate: Fate): Broker
  {
    b.(fates := b.fates[m := fate], inFlight := b.inFlight - {m})
  }

  /** Closing a receiver frees its session: what it received and did not settle can be received again. */
  function LetGo(b: Broker, r: Receiver): Broker
  {
    if r.session in b.locks && b.locks[r.session] == r.id then
      b.(locks := b.locks - {r.session}, inFlight := set m | m in b.inFlight && m.session != r.session)
    else b
  }

  // ---------- the queue ----------

  /** `list.remove`: the first equal element goes. */
  function Remove(held: seq<HeldBack>, h: HeldBack): (rest: seq<HeldBack>)
    requires h in held
    ensures |rest| == |held| - 1
  {
    if held[0] == h then held[1..] else [held[0]] + Remove(held[1..], h)
  }

  /** A message left for the last time goes to the dead letters, and its session is let go. */
  function Buried(q: Queue, h: HeldBack): Queue
    requires h in q.heldBack
  {
    q.(heldBack := Remove(q.heldBack, h), broker := LetGo(Settle(q.broker, h.message, DeadLettered), h.receiver))
  }

  function Again(q: Queue, h: HeldBack): (Queue, Option<Handed>)
    requires h in q.heldBack
  {
    (q.(heldBack := Remove(q.heldBack, h)), Some(Handed(h.receiver, h.message, h.receives + 1)))
  }

  /** The pass over the held-back messages: those due are handed out again, the first one at once, or
      dead-lettered if this was their last time. */
  function Redeliver(q: Queue, todo: seq<HeldBack>, now: int): (Queue, Option<Handed>)
    decreases |todo|
  {
    if todo == [] then (q, None)
    else
      var h := todo[0];
      if h.due > now || h !in q.heldBack then Redeliver(q, todo[1..], now)
      else if h.receives < MAX_RECEIVES then Again(q, h)
      else Redeliver(Buried(q, h), todo[1..], now)
  }

  /** The session to read: the one held, or the next one the broker offers, if it offers one in time. */
  function Taken(q: Queue, accept: Option<Session>): Queue
  {
    if q.receiver.Some? || accept.None? || !Offered(q.broker, accept.value) then q
    else
      var r := Receiver(q.nextId, accept.value);
      q.(receiver := Some(r), nextId := q.nextId + 1, broker := q.broker.(locks := q.broker.locks[r.session := r.id]))
  }

  function Release(q: Queue): Queue
  {
    if q.receiver.None? then q else q.(receiver := None, broker := LetGo(q.broker, q.receiver.value))
  }

  /** One message of the session read, if one arrives within the wait; otherwise the session is released. */
  function Read(q: Queue, arrives: bool): (Queue, Option<Handed>)
  {
    if q.receiver.None? then (q, None)
    else
      var r := q.receiver.value;
      match if arrives then NextOf(q.broker, r.session) else None
      case None => (Release(q), None)
      case Some(k) =>
        var m := Id(r.session, k);
        (q.(broker := q.broker.(inFlight := q.broker.inFlight + {m})), Some(Handed(r, m, 1)))
  }

  function Receive(q: Queue, now: int, accept: Option<Session>, arrives: bool): (Queue, Option<Handed>)
  {
    var (q1, again) := Redeliver(q, q.heldBack, now);
    if again.Some? then (q1, again) else Read(Taken(q1, accept), arrives)
  }

  function Acknowledge(q: Queue, h: Handed): Queue
  {
    var b := Settle(q.broker, h.message, Completed);
    q.(broker := if q.receiver == Some(h.receiver) then b else LetGo(b, h.receiver))
  }

  function Leave(q: Queue, h: Handed, due: int): Queue
  {
    q.(receiver := if q.receiver == Some(h.receiver) then None else q.receiver,
       heldBack := q.heldBack + [HeldBack(h.receiver, h.message, h.receives, due)])
  }

  function Send(q: Queue, s: Session): Queue
  {
    var n := if s in q.broker.sent then q.broker.sent[s] else 0;
    q.(broker := q.broker.(sent := q.broker.sent[s := n + 1]))
  }

  // ---------- the agent with the queue ----------

  /** History: how often each message was handed out, and when one that was left is visible again. */
  datatype World = World(q: Queue, clock: int, hand: Option<Handed>, times: map<Id, nat>, visible: map<Id, int>)

  datatype Event =
    | Sends(s: Session)
    | Receives(accept: Option<Session>, arrives: bool)
    | Acknowledges
    | Leaves(timeout: nat)
    | Tick

  /** The agent decides on each message before it receives again. */
  predicate CanDo(w: World, e: Event)
  {
    match e
    case Sends(_) => true
    case Receives(_, _) => w.hand.None?
    case Acknowledges => w.hand.Some?
    case Leaves(_) => w.hand.Some?
    case Tick => true
  }

  function Times(w: World, m: Id): nat
  {
    if m in w.times then w.times[m] else 0
  }

  function Received(w: World, r: (Queue, Option<Handed>)): World
  {
    var v := w.(q := r.0, hand := r.1);
    if r.1.None? then v else v.(times := w.times[r.1.value.message := Times(w, r.1.value.message) + 1])
  }

  function Step(w: World, e: Event): World
    requires CanDo(w, e)
  {
    match e
    case Sends(s) => w.(q := Send(w.q, s))
    case Receives(accept, arrives) => Received(w, Receive(w.q, w.clock, accept, arrives))
    case Acknowledges => w.(q := Acknowledge(w.q, w.hand.value), hand := None)
    case Leaves(timeout) =>
      w.(q := Leave(w.q, w.hand.value, w.clock + timeout), hand := None,
         visible := w.visible[w.hand.value.message := w.clock + timeout])
    case Tick => w.(clock := w.clock + 1)
  }

  predicate Init(w: World)
  {
    && w.q.receiver.None? && w.q.heldBack == [] && w.q.broker.fates == map[] && w.q.broker.locks == map[]
    && w.q.broker.inFlight == {} && w.hand.None? && w.times == map[] && w.visible == map[]
  }

  // ---------- the queue as an object ----------

  class ServiceBusControlQueue {
    var broker: Broker
    var receiver: Option<Receiver>
    var heldBack: seq<HeldBack>
    var nextId: nat

    constructor (broker: Broker)
      ensures View() == Queue(broker, None, [], 0)
    {
      this.broker, receiver, heldBack, nextId := broker, None, [], 0;
    }

    ghost function View(): Queue
      reads this
    {
      Queue(broker, receiver, heldBack, nextId)
    }

    method DoneWith(r: Receiver)
      modifies this`broker
      ensures broker == if receiver == Some(r) then old(broker) else LetGo(old(broker), r)
    {
      if receiver != Some(r) { broker := LetGo(broker, r); }
    }

    method ReleaseSession()
      modifies this`broker, this`receiver
      ensures View() == Release(old(View()))
    {
      var r := receiver;
      receiver := None;
      if r.Some? { broker := LetGo(broker, r.value); }
    }

    method HandHeldBack(now: int) returns (handed: Option<Handed>)
      modifies this`broker, this`heldBack
      ensures (View(), handed) == Redeliver(old(View()), old(heldBack), now)
    {
      var todo := heldBack;
      while todo != []
        invariant Redeliver(View(), todo, now) == Redeliver(old(View()), old(heldBack), now)
        decreases |todo|
      {
        var h := todo[0];
        if h.due > now || h !in heldBack {
          todo := todo[1..];
          continue;
        }
        heldBack := Remove(heldBack, h);
        if h.receives < MAX_RECEIVES { return Some(Handed(h.receiver, h.message, h.receives + 1)); }
        broker := LetGo(Settle(broker, h.message, DeadLettered), h.receiver);
        todo := todo[1..];
      }
      handed := None;
    }

    method ReceiveOne(now: int, accept: Option<Session>, arrives: bool) returns (handed: Option<Handed>)
      modifies this
      ensures (View(), handed) == Receive(old(View()), now, accept, arrives)
    {
      handed := HandHeldBack(now);
      if handed.Some? { return; }
      if receiver.None? {
        if accept.None? || !Offered(broker, accept.value) { return; }
        var r := Receiver(nextId, accept.value);
        receiver, nextId := Some(r), nextId + 1;
        broker := broker.(locks := broker.locks[r.session := r.id]);
      }
      var r := receiver.value;
      var next := if arrives then NextOf(broker, r.session) else None;
      if next.None? {
        ReleaseSession();
        return;
      }
      var m := Id(r.session, next.value);
      broker := broker.(inFlight := broker.inFlight + {m});
      handed := Some(Handed(r, m, 1));
    }

    method AcknowledgeHanded(h: Handed)
      modifies this`broker
      ensures View() == Acknowledge(old(View()), h)
    {
      broker := Settle(broker, h.message, Completed);
      DoneWith(h.receiver);
    }

    method LeaveHanded(h: Handed, due: int)
      modifies this`receiver, this`heldBack
      ensures View() == Leave(old(View()), h, due)
    {
      if receiver == Some(h.receiver) { receiver := None; }
      heldBack := heldBack + [HeldBack(h.receiver, h.message, h.receives, due)];
    }
  }
}
