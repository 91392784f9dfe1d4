/** Order, delivery limit, visibility and conservation of the session queue, for every interleaving of sends,
    receives, decisions and time. */
module SessionLaws {
  import opened Wrappers
  import opened SessionQueue

  function AsHanded(h: HeldBack): Handed
  {
    Handed(h.receiver, h.message, h.receives)
  }

  /** Every earlier message of the session is completed or dead-lettered. */
  ghost predicate IsFrontier(b: Broker, m: Id)
  {
    && m !in b.fates
    && forall k: nat | k < m.index :: Id(m.session, k) in b.fates
  }

  /** A message taken from the broker, in the agent's hand or held aside. */
  ghost predicate ClaimOk(w: World, c: Handed)
  {
    var b, m := w.q.broker, c.message;
    && Exists(b, m) && m.session == c.receiver.session && IsFrontier(b, m)
    && m.session in b.locks && b.locks[m.session] == c.receiver.id
    && (forall x | x in b.inFlight :: x.session == m.session ==> x == m)
    && Times(w, m) == c.receives && 1 <= c.receives <= MAX_RECEIVES
  }

  predicate Apart(held: seq<HeldBack>)
  {
    forall i, j | 0 <= i < j < |held| :: held[i].message.session != held[j].message.session
  }

  predicate HoldsAside(held: seq<HeldBack>, s: Session)
  {
    exists h :: h in held && h.message.session == s
  }

  ghost predicate HeldOk(w: World)
  {
    && Apart(w.q.heldBack)
    && forall h | h in w.q.heldBack ::
         ClaimOk(w, AsHanded(h)) && h.message in w.visible && w.visible[h.message] == h.due
  }

  ghost predicate HandOk(w: World)
  {
    w.hand.Some? ==>
      && ClaimOk(w, w.hand.value) && !HoldsAside(w.q.heldBack, w.hand.value.message.session)
      && (w.hand.value.message in w.visible <==> w.hand.value.receives > 1)
      && (w.hand.value.message in w.visible ==> w.visible[w.hand.value.message] <= w.clock)
  }

  ghost predicate ReaderOk(w: World)
  {
    w.q.receiver.Some? ==>
      var r, b := w.q.receiver.value, w.q.broker;
      && r.session in b.locks && b.locks[r.session] == r.id && !HoldsAside(w.q.heldBack, r.session)
      && ((w.hand.Some? && w.hand.value.receiver == r)
          || ((forall x | x in b.inFlight :: x.session != r.session) && (w.hand.Some? ==> w.hand.value.message.session != r.session)))
  }

  ghost predicate Claimed(w: World, m: Id)
  {
    (w.hand.Some? && w.hand.value.message == m) || exists h :: h in w.q.heldBack && h.message == m
  }

  ghost predicate BookOk(w: World)
  {
    var b := w.q.broker;
    && (forall m | m in b.fates :: Exists(b, m) && 1 <= Times(w, m) <= MAX_RECEIVES && (b.fates[m] == DeadLettered ==> Times(w, m) == MAX_RECEIVES))
    && (forall m | m in w.visible :: Times(w, m) > 0)
    && (forall m | m in b.inFlight :: m.session in b.locks)
    && (forall m | m in w.times :: Times(w, m) > 0 ==> m in b.fates || Claimed(w, m))
  }

  ghost predicate Inv(w: World)
  {
    HeldOk(w) && HandOk(w) && ReaderOk(w) && BookOk(w)
  }

  // ---------- list.remove ----------

  lemma {:induction false} RemoveKeeps(held: seq<HeldBack>, h: HeldBack)
    requires h in held && Apart(held)
    ensures Apart(Remove(held, h))
    ensures forall x :: x in Remove(held, h) <==> x in held && x.message.session != h.message.session
  {
    if held[0] == h {
      assert held == [h] + held[1..];
    } else {
      assert held == [held[0]] + held[1..];
      assert Apart(held[1..]);
      RemoveKeeps(held[1..], h);
    }
  }

  // ---------- the passes of a receive ----------

  lemma BuryHeldOk(w: World, h: HeldBack)
    requires HeldOk(w) && w.hand.None? && h in w.q.heldBack
    ensures HeldOk(w.(q := Buried(w.q, h)))
  {
    RemoveKeeps(w.q.heldBack, h);
    var v := w.(q := Buried(w.q, h));
    forall x | x in v.q.heldBack ensures ClaimOk(v, AsHanded(x)) { assert ClaimOk(w, AsHanded(x)) && ClaimOk(w, AsHanded(h)); }
  }

  lemma OtherClaimStays(w: World, v: World, h: HeldBack, m: Id)
    requires h in w.q.heldBack && Apart(w.q.heldBack) && v.q.heldBack == Remove(w.q.heldBack, h)
    requires w.hand.None? && Claimed(w, m) && m != h.message
    ensures Claimed(v, m)
  {
    RemoveKeeps(w.q.heldBack, h);
    var x :| x in w.q.heldBack && x.message == m;
    if x.message.session == h.message.session { SameSessionSameHeld(w.q.heldBack, x, h); }
    assert x in Remove(w.q.heldBack, h);
  }

  lemma BuryBookOk(w: World, h: HeldBack)
    requires BookOk(w) && w.hand.None? && h in w.q.heldBack && ClaimOk(w, AsHanded(h)) && Apart(w.q.heldBack)
    requires h.receives == MAX_RECEIVES
    ensures BookOk(w.(q := Buried(w.q, h)))
  {
    var v := w.(q := Buried(w.q, h));
    forall m | m in v.times && Times(v, m) > 0 ensures m in v.q.broker.fates || Claimed(v, m) {
      if m != h.message && m !in w.q.broker.fates { OtherClaimStays(w, v, h, m); }
    }
  }

  /** A message held aside for the last time goes to the dead letters. */
  lemma BuryInv(w: World, h: HeldBack)
    requires Inv(w) && w.hand.None? && h in w.q.heldBack && h.receives == MAX_RECEIVES
    ensures Inv(w.(q := Buried(w.q, h)))
  {
    BuryHeldOk(w, h);
    assert ClaimOk(w, AsHanded(h));
    BuryBookOk(w, h);
    RemoveKeeps(w.q.heldBack, h);
  }

  lemma AgainHandOk(w: World, h: HeldBack)
    requires Inv(w) && w.hand.None? && h in w.q.heldBack && h.receives < MAX_RECEIVES && h.due <= w.clock
    ensures HandOk(Received(w, Again(w.q, h)))
  {
    RemoveKeeps(w.q.heldBack, h);
    assert ClaimOk(w, AsHanded(h));
  }

  lemma AgainHeldOk(w: World, h: HeldBack)
    requires Inv(w) && w.hand.None? && h in w.q.heldBack
    ensures HeldOk(Received(w, Again(w.q, h)))
  {
    RemoveKeeps(w.q.heldBack, h);
    var v := Received(w, Again(w.q, h));
    forall x | x in v.q.heldBack ensures ClaimOk(v, AsHanded(x)) { assert ClaimOk(w, AsHanded(x)); }
  }

  /** A message held aside and due is handed out again. */
  lemma AgainInv(w: World, h: HeldBack)
    requires Inv(w) && w.hand.None? && h in w.q.heldBack && h.receives < MAX_RECEIVES && h.due <= w.clock
    ensures Inv(Received(w, Again(w.q, h)))
  {
    AgainHandOk(w, h);
    AgainHeldOk(w, h);
    RemoveKeeps(w.q.heldBack, h);
    assert ClaimOk(w, AsHanded(h));
    AgainBookOk(w, h);
  }

  /** Each hand-out counts for its own message alone. */
  lemma TimesAfter(w: World, r: (Queue, Option<Handed>), m: Id)
    ensures Times(Received(w, r), m) == Times(w, m) + if r.1.Some? && r.1.value.message == m then 1 else 0
  {
  }

  lemma AgainClaims(w: World, h: HeldBack)
    requires BookOk(w) && w.hand.None? && h in w.q.heldBack && Apart(w.q.heldBack)
    ensures var v := Received(w, Again(w.q, h));
      forall m | m in v.times && Times(v, m) > 0 :: m in v.q.broker.fates || Claimed(v, m)
  {
    var v := Received(w, Again(w.q, h));
    forall m | m in v.times && Times(v, m) > 0 ensures m in v.q.broker.fates || Claimed(v, m) {
      TimesAfter(w, Again(w.q, h), m);
      if m != h.message && m !in w.q.broker.fates { OtherClaimStays(w, v, h, m); }
    }
  }

  lemma AgainBookOk(w: World, h: HeldBack)
    requires BookOk(w) && w.hand.None? && h in w.q.heldBack && ClaimOk(w, AsHanded(h)) && Apart(w.q.heldBack)
    ensures BookOk(Received(w, Again(w.q, h)))
  {
    AgainClaims(w, h);
    var v := Received(w, Again(w.q, h));
    assert v.q.broker == w.q.broker && v.visible == w.visible;
    forall m ensures Times(v, m) >= Times(w, m) && (m != h.message ==> Times(v, m) == Times(w, m)) { TimesAfter(w, Again(w.q, h), m); }
  }

  lemma SameSessionSameHeld(held: seq<HeldBack>, x: HeldBack, y: HeldBack)
    requires x in held && y in held && Apart(held) && x.message.session == y.message.session
    ensures x == y
  {
    var i :| 0 <= i < |held| && held[i] == x;
    var j :| 0 <= j < |held| && held[j] == y;
    assert !(i < j) && !(j < i);
  }

  lemma HeldReceives(w: World, h: HeldBack)
    requires Inv(w) && h in w.q.heldBack
    ensures 1 <= h.receives <= MAX_RECEIVES
  {
    assert ClaimOk(w, AsHanded(h));
  }

  predicate Skipped(w: World, h: HeldBack)
  {
    h.due > w.clock || h !in w.q.heldBack
  }

  // One message of the pass: skipped, handed out again, or dead-lettered.

  lemma RedeliverSkips(q: Queue, todo: seq<HeldBack>, now: int)
    requires todo != [] && (todo[0].due > now || todo[0] !in q.heldBack)
    ensures Redeliver(q, todo, now) == Redeliver(q, todo[1..], now)
  {
  }

  lemma RedeliverHands(q: Queue, todo: seq<HeldBack>, now: int)
    requires todo != [] && todo[0].due <= now && todo[0] in q.heldBack && todo[0].receives < MAX_RECEIVES
    ensures Redeliver(q, todo, now) == Again(q, todo[0])
  {
  }

  lemma RedeliverBuries(q: Queue, todo: seq<HeldBack>, now: int)
    requires todo != [] && todo[0].due <= now && todo[0] in q.heldBack && todo[0].receives >= MAX_RECEIVES
    ensures Redeliver(q, todo, now) == Redeliver(Buried(q, todo[0]), todo[1..], now)
  {
  }

  lemma ReceivedForgets(w: World, v: World, r: (Queue, Option<Handed>))
    requires v == w.(q := v.q)
    ensures Received(v, r) == Received(w, r)
  {
  }

  lemma {:induction false} RedeliverInv(w: World, todo: seq<HeldBack>)
    requires Inv(w) && w.hand.None?
    ensures Inv(Received(w, Redeliver(w.q, todo, w.clock)))
    decreases |todo|
  {
    if todo == [] {
      assert Received(w, Redeliver(w.q, todo, w.clock)) == w;
    } else {
      var h := todo[0];
      if Skipped(w, h) {
        RedeliverSkips(w.q, todo, w.clock);
        RedeliverInv(w, todo[1..]);
      } else {
        HeldReceives(w, h);
        if h.receives < MAX_RECEIVES {
          RedeliverHands(w.q, todo, w.clock);
          AgainInv(w, h);
        } else {
          RedeliverBuries(w.q, todo, w.clock);
          BuryInv(w, h);
          var v := w.(q := Buried(w.q, h));
          RedeliverInv(v, todo[1..]);
          ReceivedForgets(w, v, Redeliver(v.q, todo[1..], w.clock));
        }
      }
    }
  }

  lemma TakenHeldOk(w: World, accept: Option<Session>)
    requires HeldOk(w)
    ensures HeldOk(w.(q := Taken(w.q, accept)))
    ensures accept.Some? && Offered(w.q.broker, accept.value) ==> !HoldsAside(w.q.heldBack, accept.value)
  {
    var v := w.(q := Taken(w.q, accept));
    forall h | h in w.q.heldBack ensures ClaimOk(v, AsHanded(h)) { assert ClaimOk(w, AsHanded(h)); }
  }

  lemma TakenInv(w: World, accept: Option<Session>)
    requires Inv(w) && w.hand.None?
    ensures Inv(w.(q := Taken(w.q, accept)))
  {
    TakenHeldOk(w, accept);
  }

  lemma ReleaseHeldOk(w: World)
    requires HeldOk(w) && ReaderOk(w)
    ensures HeldOk(w.(q := Release(w.q)))
  {
    var v := w.(q := Release(w.q));
    forall h | h in w.q.heldBack ensures ClaimOk(v, AsHanded(h)) { assert ClaimOk(w, AsHanded(h)); }
  }

  lemma ReleaseInv(w: World)
    requires Inv(w) && w.hand.None?
    ensures Inv(w.(q := Release(w.q)))
  {
    ReleaseHeldOk(w);
  }

  lemma {:induction false} NextFromIsFirst(b: Broker, s: Session, k: nat)
    requires s in b.sent && NextFrom(b, s, k).Some?
    ensures var n := NextFrom(b, s, k).value;
      && k <= n < b.sent[s] && Id(s, n) !in b.fates && Id(s, n) !in b.inFlight
      && forall i: nat | k <= i < n :: Id(s, i) in b.fates || Id(s, i) in b.inFlight
    decreases b.sent[s] - k
  {
    if Id(s, k) in b.fates || Id(s, k) in b.inFlight { NextFromIsFirst(b, s, k + 1); }
  }

  /** A message read from a session has never been handed out before. */
  lemma FirstTimeIsNew(w: World, m: Id)
    requires Inv(w) && w.hand.None? && m !in w.q.broker.fates && !HoldsAside(w.q.heldBack, m.session)
    ensures Times(w, m) == 0
  {
  }

  lemma ReadSomeIs(w: World, k: nat)
    requires w.q.receiver.Some? && NextOf(w.q.broker, w.q.receiver.value.session) == Some(k)
    ensures var r := w.q.receiver.value; var m := Id(r.session, k);
      Read(w.q, true) == (w.q.(broker := w.q.broker.(inFlight := w.q.broker.inFlight + {m})), Some(Handed(r, m, 1)))
  {
  }

  lemma ReadSomeHeldOk(w: World, k: nat)
    requires Inv(w) && w.hand.None? && w.q.receiver.Some? && NextOf(w.q.broker, w.q.receiver.value.session) == Some(k)
    ensures HeldOk(Received(w, Read(w.q, true)))
  {
    ReadSomeIs(w, k);
    var v, m := Received(w, Read(w.q, true)), Id(w.q.receiver.value.session, k);
    forall h | h in w.q.heldBack ensures ClaimOk(v, AsHanded(h)) {
      assert ClaimOk(w, AsHanded(h)) && h.message.session != m.session;
      TimesAfter(w, Read(w.q, true), h.message);
    }
  }

  lemma ReadSomeHandOk(w: World, k: nat)
    requires Inv(w) && w.hand.None? && w.q.receiver.Some? && NextOf(w.q.broker, w.q.receiver.value.session) == Some(k)
    ensures HandOk(Received(w, Read(w.q, true))) && ReaderOk(Received(w, Read(w.q, true)))
  {
    ReadSomeIs(w, k);
    var r := w.q.receiver.value;
    NextFromIsFirst(w.q.broker, r.session, 0);
    FirstTimeIsNew(w, Id(r.session, k));
  }

  lemma ReadSomeBookOk(w: World, k: nat)
    requires Inv(w) && w.hand.None? && w.q.receiver.Some? && NextOf(w.q.broker, w.q.receiver.value.session) == Some(k)
    ensures BookOk(Received(w, Read(w.q, true)))
  {
    ReadSomeIs(w, k);
    NextFromIsFirst(w.q.broker, w.q.receiver.value.session, 0);
    var v, m := Received(w, Read(w.q, true)), Id(w.q.receiver.value.session, k);
    forall x ensures Times(v, x) == Times(w, x) + (if x == m then 1 else 0) { TimesAfter(w, Read(w.q, true), x); }
    assert Claimed(v, m);
    forall x | x in v.times && Times(v, x) > 0 ensures x in v.q.broker.fates || Claimed(v, x) {
      if x != m { assert x in w.q.broker.fates || Claimed(w, x); }
    }
  }

  lemma ReadSomeInv(w: World, k: nat)
    requires Inv(w) && w.hand.None? && w.q.receiver.Some? && NextOf(w.q.broker, w.q.receiver.value.session) == Some(k)
    ensures Inv(Received(w, Read(w.q, true)))
  {
    ReadSomeHeldOk(w, k);
    ReadSomeHandOk(w, k);
    ReadSomeBookOk(w, k);
  }

  lemma ReadInv(w: World, arrives: bool)
    requires Inv(w) && w.hand.None?
    ensures Inv(Received(w, Read(w.q, arrives)))
  {
    if w.q.receiver.Some? {
      if arrives && NextOf(w.q.broker, w.q.receiver.value.session).Some? {
        ReadSomeInv(w, NextOf(w.q.broker, w.q.receiver.value.session).value);
      } else {
        ReleaseInv(w);
      }
    }
  }

  lemma TakeAndReadInv(w: World, accept: Option<Session>, arrives: bool)
    requires Inv(w) && w.hand.None?
    ensures Inv(Received(w, Read(Taken(w.q, accept), arrives)))
  {
    TakenInv(w, accept);
    ReadInv(w.(q := Taken(w.q, accept)), arrives);
  }

  lemma ReceiveInTwo(w: World, accept: Option<Session>, arrives: bool)
    ensures var r := Redeliver(w.q, w.q.heldBack, w.clock);
      Received(w, Receive(w.q, w.clock, accept, arrives)) ==
      if r.1.Some? then Received(w, r) else Received(Received(w, r), Read(Taken(r.0, accept), arrives))
  {
  }

  lemma ReceiveInv(w: World, accept: Option<Session>, arrives: bool)
    requires Inv(w) && w.hand.None?
    ensures Inv(Received(w, Receive(w.q, w.clock, accept, arrives)))
  {
    ReceiveInTwo(w, accept, arrives);
    RedeliverInv(w, w.q.heldBack);
    var v := Received(w, Redeliver(w.q, w.q.heldBack, w.clock));
    if v.hand.None? { TakeAndReadInv(v, accept, arrives); }
  }

  // ---------- the other events ----------

  lemma SendInv(w: World, s: Session)
    requires Inv(w)
    ensures Inv(Step(w, Sends(s)))
  {
    var v := Step(w, Sends(s));
    forall h | h in v.q.heldBack ensures ClaimOk(v, AsHanded(h)) { assert ClaimOk(w, AsHanded(h)); }
  }

  lemma AcknowledgeBookOk(w: World)
    requires BookOk(w) && w.hand.Some? && ClaimOk(w, w.hand.value)
    ensures BookOk(Step(w, Acknowledges))
  {
    var v := Step(w, Acknowledges);
    forall m | m in v.times && Times(v, m) > 0 ensures m in v.q.broker.fates || Claimed(v, m) { }
  }

  lemma AcknowledgeInv(w: World)
    requires Inv(w) && w.hand.Some?
    ensures Inv(Step(w, Acknowledges))
  {
    AcknowledgeBookOk(w);
    var v := Step(w, Acknowledges);
    forall h | h in v.q.heldBack ensures ClaimOk(v, AsHanded(h)) { assert ClaimOk(w, AsHanded(h)); }
  }

  lemma LeaveHeldOk(w: World, timeout: nat)
    requires HeldOk(w) && HandOk(w) && w.hand.Some?
    ensures HeldOk(Step(w, Leaves(timeout)))
  {
    var v := Step(w, Leaves(timeout));
    forall h | h in w.q.heldBack ensures ClaimOk(v, AsHanded(h)) && h.message != w.hand.value.message {
      assert ClaimOk(w, AsHanded(h));
    }
  }

  lemma LeaveBookOk(w: World, timeout: nat)
    requires BookOk(w) && w.hand.Some? && ClaimOk(w, w.hand.value)
    ensures BookOk(Step(w, Leaves(timeout)))
  {
    var v := Step(w, Leaves(timeout));
    var left := v.q.heldBack[|w.q.heldBack|];
    assert left in v.q.heldBack && left.message == w.hand.value.message;
    forall m | m in v.times && Times(v, m) > 0 ensures m in v.q.broker.fates || Claimed(v, m) { }
  }

  lemma LeaveReaderOk(w: World, timeout: nat)
    requires HandOk(w) && ReaderOk(w) && w.hand.Some?
    ensures ReaderOk(Step(w, Leaves(timeout)))
  {
  }

  lemma LeaveInv(w: World, timeout: nat)
    requires Inv(w) && w.hand.Some?
    ensures Inv(Step(w, Leaves(timeout)))
  {
    LeaveHeldOk(w, timeout);
    LeaveBookOk(w, timeout);
    LeaveReaderOk(w, timeout);
  }

  lemma TickInv(w: World)
    requires Inv(w)
    ensures Inv(Step(w, Tick))
  {
  }

  lemma StepInv(w: World, e: Event)
    requires Inv(w) && CanDo(w, e)
    ensures Inv(Step(w, e))
  {
    match e
    case Sends(s) => SendInv(w, s);
    case Receives(accept, arrives) => ReceiveInv(w, accept, arrives);
    case Acknowledges => AcknowledgeInv(w);
    case Leaves(timeout) => LeaveInv(w, timeout);
    case Tick => TickInv(w);
  }

  // ---------- over every run ----------

  ghost predicate Run(ws: seq<World>, es: seq<Event>)
  {
    && |ws| == |es| + 1 && Init(ws[0])
    && forall i {:trigger es[i]} | 0 <= i < |es| :: CanDo(ws[i], es[i]) && ws[i + 1] == Step(ws[i], es[i])
  }

  lemma {:induction false} RunInv(ws: seq<World>, es: seq<Event>, i: nat)
    requires Run(ws, es) && i < |ws|
    ensures Inv(ws[i])
    decreases i
  {
    if i > 0 {
      RunInv(ws, es, i - 1);
      var e := es[i - 1];
      StepInv(ws[i - 1], e);
    }
  }

  /** In each session, the settled messages are the first ones. */
  ghost predicate SettledInOrder(b: Broker)
  {
    forall m: Id, k: nat {:trigger m in b.fates, Id(m.session, k)} | m in b.fates && k < m.index :: Id(m.session, k) in b.fates
  }

  lemma SettlesInOrder(b: Broker, m: Id, fate: Fate)
    requires SettledInOrder(b) && IsFrontier(b, m)
    ensures SettledInOrder(Settle(b, m, fate))
  {
  }

  lemma {:induction false} RedeliversInOrder(w: World, todo: seq<HeldBack>)
    requires Inv(w) && w.hand.None? && SettledInOrder(w.q.broker)
    ensures SettledInOrder(Redeliver(w.q, todo, w.clock).0.broker)
    decreases |todo|
  {
    if todo != [] {
      var h := todo[0];
      if h.due > w.clock || h !in w.q.heldBack {
        RedeliversInOrder(w, todo[1..]);
      } else if h.receives >= MAX_RECEIVES {
        HeldReceives(w, h);
        BuryInv(w, h);
        assert ClaimOk(w, AsHanded(h));
        SettlesInOrder(w.q.broker, h.message, DeadLettered);
        RedeliversInOrder(w.(q := Buried(w.q, h)), todo[1..]);
      }
    }
  }

  lemma StepSettlesInOrder(w: World, e: Event)
    requires Inv(w) && CanDo(w, e) && SettledInOrder(w.q.broker)
    ensures SettledInOrder(Step(w, e).q.broker)
  {
    if e.Receives? {
      RedeliversInOrder(w, w.q.heldBack);
      ReadSettlesNothing(Redeliver(w.q, w.q.heldBack, w.clock).0, e.accept, e.arrives);
    } else if e.Acknowledges? {
      SettlesInOrder(w.q.broker, w.hand.value.message, Completed);
    }
  }

  lemma {:induction false} RunSettlesInOrder(ws: seq<World>, es: seq<Event>, i: nat)
    requires Run(ws, es) && i < |ws|
    ensures SettledInOrder(ws[i].q.broker)
    decreases i
  {
    if i > 0 {
      RunSettlesInOrder(ws, es, i - 1);
      RunInv(ws, es, i - 1);
      var e := es[i - 1];
      StepSettlesInOrder(ws[i - 1], e);
    }
  }

  /** Once a message has been handed out, every earlier message of its session has been completed or
      dead-lettered: no event overtakes one that was left. */
  lemma NothingOvertakes(ws: seq<World>, es: seq<Event>, i: nat, m: Id, k: nat)
    requires Run(ws, es) && i < |ws| && Times(ws[i], m) > 0 && k < m.index
    ensures Id(m.session, k) in ws[i].q.broker.fates
  {
    RunInv(ws, es, i);
    RunSettlesInOrder(ws, es, i);
    HandedIsFrontier(ws[i], m);
  }

  lemma HandedIsFrontier(w: World, m: Id)
    requires Inv(w) && Times(w, m) > 0
    ensures m in w.q.broker.fates || IsFrontier(w.q.broker, m)
  {
    if m !in w.q.broker.fates && !(w.hand.Some? && w.hand.value.message == m) {
      var h :| h in w.q.heldBack && h.message == m;
      assert ClaimOk(w, AsHanded(h));
    }
  }

  /** A message is handed out at most three times, and dead-lettered only after all three. */
  lemma HandedOutAtMostThreeTimes(ws: seq<World>, es: seq<Event>, i: nat, m: Id)
    requires Run(ws, es) && i < |ws|
    ensures Times(ws[i], m) <= MAX_RECEIVES
    ensures m in ws[i].q.broker.fates && ws[i].q.broker.fates[m] == DeadLettered ==> Times(ws[i], m) == MAX_RECEIVES
    ensures m in ws[i].q.broker.fates ==> Times(ws[i], m) >= 1
  {
    RunInv(ws, es, i);
    var w := ws[i];
    if Times(w, m) > 0 && m !in w.q.broker.fates && !(w.hand.Some? && w.hand.value.message == m) {
      var h :| h in w.q.heldBack && h.message == m;
      assert ClaimOk(w, AsHanded(h));
    }
  }

  /** A message that was left is in hand again only once its visibility timeout has passed. */
  lemma NeverBeforeItsTimeout(ws: seq<World>, es: seq<Event>, i: nat)
    requires Run(ws, es) && i < |ws| && ws[i].hand.Some? && ws[i].hand.value.message in ws[i].visible
    ensures ws[i].visible[ws[i].hand.value.message] <= ws[i].clock
  {
    RunInv(ws, es, i);
  }

  predicate InHand(w: World, m: Id)
  {
    w.hand.Some? && w.hand.value.message == m
  }

  predicate Aside(w: World, m: Id)
  {
    exists h :: h in w.q.heldBack && h.message == m
  }

  function Count(p: bool): nat
  {
    if p then 1 else 0
  }

  /** Every message is in exactly one place: settled, in the agent's hand, held aside, or still waiting at the
      broker and never handed out. */
  lemma NoneLostNoneTwice(ws: seq<World>, es: seq<Event>, i: nat, m: Id)
    requires Run(ws, es) && i < |ws| && Exists(ws[i].q.broker, m)
    ensures var w := ws[i]; var settled := m in w.q.broker.fates;
      Count(settled) + Count(InHand(w, m)) + Count(Aside(w, m)) + Count(!settled && Times(w, m) == 0) == 1
  {
    RunInv(ws, es, i);
    var w := ws[i];
    if Aside(w, m) {
      var h :| h in w.q.heldBack && h.message == m;
      assert ClaimOk(w, AsHanded(h));
    }
  }

  /** How a message is settled: completed by the agent's acknowledgment, or dead-lettered by a receive that
      found it left three times and due. */
  lemma SettledOnlyByDecisionOrRedrive(w: World, e: Event, m: Id)
    requires Inv(w) && CanDo(w, e) && m !in w.q.broker.fates && m in Step(w, e).q.broker.fates
    ensures Step(w, e).q.broker.fates[m] == Completed ==> e.Acknowledges? && InHand(w, m)
    ensures Step(w, e).q.broker.fates[m] == DeadLettered ==>
      e.Receives? && exists h :: h in w.q.heldBack && h.message == m && h.receives == MAX_RECEIVES && h.due <= w.clock
  {
    if e.Receives? {
      ReadSettlesNothing(Redeliver(w.q, w.q.heldBack, w.clock).0, e.accept, e.arrives);
      RedeliverSettles(w, w.q.heldBack, m);
    }
  }

  lemma ReadSettlesNothing(q: Queue, accept: Option<Session>, arrives: bool)
    ensures Read(Taken(q, accept), arrives).0.broker.fates == q.broker.fates
  {
    assert Taken(q, accept).broker.fates == q.broker.fates;
  }

  lemma {:induction false} RedeliverSettles(w: World, todo: seq<HeldBack>, m: Id)
    requires Inv(w) && w.hand.None? && m !in w.q.broker.fates && m in Redeliver(w.q, todo, w.clock).0.broker.fates
    ensures Redeliver(w.q, todo, w.clock).0.broker.fates[m] == DeadLettered
    ensures exists h :: h in w.q.heldBack && h.message == m && h.receives == MAX_RECEIVES && h.due <= w.clock
    decreases |todo|
  {
    var h := todo[0];
    if h.due > w.clock || h !in w.q.heldBack {
      RedeliverSettles(w, todo[1..], m);
    } else {
      HeldReceives(w, h);
      BuryInv(w, h);
      var v := w.(q := Buried(w.q, h));
      RemoveMembers(w.q.heldBack, h);
      if m == h.message {
        RedeliverKeepsFates(v.q, todo[1..], w.clock, m);
      } else {
        RedeliverSettles(v, todo[1..], m);
        var x :| x in v.q.heldBack && x.message == m && x.receives == MAX_RECEIVES && x.due <= w.clock;
        assert x in w.q.heldBack;
      }
    }
  }

  lemma {:induction false} RemoveMembers(held: seq<HeldBack>, h: HeldBack)
    requires h in held
    ensures forall x :: x in Remove(held, h) ==> x in held
  {
    if held[0] != h { RemoveMembers(held[1..], h); }
  }

  lemma {:induction false} RedeliverKeepsFates(q: Queue, todo: seq<HeldBack>, now: int, m: Id)
    requires m in q.broker.fates && (forall h | h in q.heldBack :: h.message != m)
    ensures m in Redeliver(q, todo, now).0.broker.fates && Redeliver(q, todo, now).0.broker.fates[m] == q.broker.fates[m]
    decreases |todo|
  {
    if todo != [] {
      var h := todo[0];
      if h.due > now || h !in q.heldBack {
        RedeliverKeepsFates(q, todo[1..], now, m);
      } else if h.receives >= MAX_RECEIVES {
        RemoveMembers(q.heldBack, h);
        RedeliverKeepsFates(Buried(q, h), todo[1..], now, m);
      }
    }
  }

  lemma SettledStays(w: World, e: Event, m: Id)
    requires Inv(w) && CanDo(w, e) && m in w.q.broker.fates
    ensures m in Step(w, e).q.broker.fates && Step(w, e).q.broker.fates[m] == w.q.broker.fates[m]
  {
    match e
    case Receives(accept, arrives) => ReceiveKeepsFates(w, accept, arrives, m);
    case Acknowledges => assert ClaimOk(w, w.hand.value);
    case _ =>
  }

  lemma ReceiveKeepsFates(w: World, accept: Option<Session>, arrives: bool, m: Id)
    requires HeldOk(w) && m in w.q.broker.fates
    ensures var b := Receive(w.q, w.clock, accept, arrives).0.broker; m in b.fates && b.fates[m] == w.q.broker.fates[m]
  {
    forall h | h in w.q.heldBack ensures h.message != m { assert ClaimOk(w, AsHanded(h)); }
    RedeliverKeepsFates(w.q, w.q.heldBack, w.clock, m);
    ReadSettlesNothing(Redeliver(w.q, w.q.heldBack, w.clock).0, accept, arrives);
  }

  lemma SettledIsNotInHand(w: World, m: Id)
    requires Inv(w) && m in w.q.broker.fates
    ensures !InHand(w, m)
  {
  }

  lemma {:induction false} FatesStay(ws: seq<World>, es: seq<Event>, i: nat, j: nat, m: Id)
    requires Run(ws, es) && i <= j < |ws| && m in ws[i].q.broker.fates
    ensures m in ws[j].q.broker.fates && ws[j].q.broker.fates[m] == ws[i].q.broker.fates[m]
    decreases j
  {
    if i < j {
      FatesStay(ws, es, i, j - 1, m);
      RunInv(ws, es, j - 1);
      var e := es[j - 1];
      SettledStays(ws[j - 1], e, m);
    }
  }

  /** What became of a message never changes, and it is never handed out again. */
  lemma AFateIsFinal(ws: seq<World>, es: seq<Event>, i: nat, j: nat, m: Id)
    requires Run(ws, es) && i <= j < |ws| && m in ws[i].q.broker.fates
    ensures m in ws[j].q.broker.fates && ws[j].q.broker.fates[m] == ws[i].q.broker.fates[m] && !InHand(ws[j], m)
  {
    FatesStay(ws, es, i, j, m);
    RunInv(ws, es, j);
    SettledIsNotInHand(ws[j], m);
  }
}
