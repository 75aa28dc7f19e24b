/**
 * Delivering an event again is invisible to the orders database, wherever the copies land, as long as the
 * first copy did not arrive before its step; and only then.
 */
module DuplicateErasure {
  import opened Types
  import opened OrderStore
  import opened Protocol
  import opened Invariant
  import opened Runs
  import opened Safety
  import opened Progress

  type Event = m: Message | m.IsEvent() witness PaymentProcessed(0, 0, 0, true)

  datatype Delivery = Delivery(id: MsgId, event: Event)

  function Deliver(db: OrderDb, d: Delivery): OrderDb {
    Consume(db, d.id, d.event)
  }

  function Replay(db: OrderDb, ds: seq<Delivery>): OrderDb
    decreases |ds|
  {
    if ds == [] then db else Replay(Deliver(db, ds[0]), ds[1..])
  }

  /** The event's saga exists and has reached the step the event answers, or is past it. */
  predicate NotEarly(db: OrderDb, ev: Event) {
    && ev.saga in db.sagas
    && Rank(db.sagas[ev.saga].step) <= Rank(ev.Answers())
    && (db.sagas[ev.saga].step == ReleasingInventory ==> db.sagas[ev.saga].status == Compensating)
    && (LoadsOrder(ev) ==> ev.order in db.orders)
  }

  predicate NoneEarly(db: OrderDb, ds: seq<Delivery>)
    decreases |ds|
  {
    ds == [] || (NotEarly(db, ds[0].event) && NoneEarly(Deliver(db, ds[0]), ds[1..]))
  }

  /** Nothing this delivery could still change: its id is marked, or its saga is past its step. A delivery
      skipped by the step guard is not marked, so both halves are needed. */
  predicate Spent(db: OrderDb, d: Delivery) {
    d.id in db.processed ||
    (d.event.saga in db.sagas && Rank(db.sagas[d.event.saga].step) < Rank(d.event.Answers()))
  }

  lemma DeliverSpends(db: OrderDb, d: Delivery)
    requires NotEarly(db, d.event)
    ensures Spent(Deliver(db, d), d)
  {}

  lemma SpentStays(db: OrderDb, d: Delivery, other: Delivery)
    requires Spent(db, d)
    ensures Spent(Deliver(db, other), d) && Deliver(db, d) == db
  {}

  /** `ys` is `xs` with copies of deliveries already made put in anywhere. */
  ghost predicate WithCopies(xs: seq<Delivery>, ys: seq<Delivery>, made: set<Delivery>)
    decreases |ys|
  {
    if ys == [] then xs == []
    else
      || (xs != [] && xs[0] == ys[0] && WithCopies(xs[1..], ys[1..], made + {ys[0]}))
      || (ys[0] in made && WithCopies(xs, ys[1..], made))
  }

  lemma {:induction false} CopiesAfter(db: OrderDb, xs: seq<Delivery>, ys: seq<Delivery>, made: set<Delivery>)
    requires NoneEarly(db, xs) && WithCopies(xs, ys, made)
    requires forall d :: d in made ==> Spent(db, d)
    ensures Replay(db, ys) == Replay(db, xs)
    decreases |ys|
  {
    if ys != [] {
      var d := ys[0];
      if xs != [] && xs[0] == d && WithCopies(xs[1..], ys[1..], made + {d}) {
        forall e | e in made + {d} ensures Spent(Deliver(db, d), e) {
          if e == d { DeliverSpends(db, d); } else { SpentStays(db, e, d); }
        }
        CopiesAfter(Deliver(db, d), xs[1..], ys[1..], made + {d});
      } else {
        SpentStays(db, d, d);
        CopiesAfter(db, xs, ys[1..], made);
      }
    }
  }

  /** Any number of copies, of any deliveries, anywhere after the first: orders, sagas and processed ids end equal. */
  lemma DuplicatesAreErased(db: OrderDb, xs: seq<Delivery>, ys: seq<Delivery>)
    requires NoneEarly(db, xs) && WithCopies(xs, ys, {})
    ensures Replay(db, ys) == Replay(db, xs)
  {
    CopiesAfter(db, xs, ys, {});
  }

  lemma {:induction false} ReplayConcat(db: OrderDb, xs: seq<Delivery>, ys: seq<Delivery>)
    ensures Replay(db, xs + ys) == Replay(Replay(db, xs), ys)
    decreases |xs|
  {
    if xs == [] {
      assert xs + ys == ys;
    } else {
      ReplayConcat(Deliver(db, xs[0]), xs[1..], ys);
      assert (xs + ys)[1..] == xs[1..] + ys;
    }
  }

  lemma {:induction false} SpentThrough(db: OrderDb, d: Delivery, ds: seq<Delivery>)
    requires Spent(db, d)
    ensures Spent(Replay(db, ds), d)
    decreases |ds|
  {
    if ds != [] {
      SpentStays(db, d, ds[0]);
      SpentThrough(Deliver(db, ds[0]), d, ds[1..]);
    }
  }

  ghost predicate Erasable(db: OrderDb, d: Delivery) {
    forall mid: seq<Delivery>, post: seq<Delivery> ::
      Replay(db, [d] + mid + [d] + post) == Replay(db, [d] + mid + post)
  }

  /** The events that bring the saga from an earlier step to the one the event answers. */
  function CatchUp(db: OrderDb, ev: Event, id: MsgId): seq<Delivery>
    requires ev.saga in db.sagas
  {
    var reserved := Delivery(id, InventoryReserved(ev.saga, ev.order, 0, 1, true));
    var declined := Delivery(id + 1, PaymentProcessed(ev.saga, ev.order, 0, false));
    if ev.PaymentProcessed? then [reserved]
    else if db.sagas[ev.saga].step == ReservingInventory then [reserved, declined]
    else [declined]
  }

  lemma EarlyCopyMatters(db: OrderDb, d: Delivery, id: MsgId)
    requires d.event.saga in db.sagas && d.event.order in db.orders && d.id !in db.processed
    requires Rank(db.sagas[d.event.saga].step) > Rank(d.event.Answers())
    requires id !in db.processed && id + 1 !in db.processed && d.id < id
    ensures var mid := CatchUp(db, d.event, id); Replay(db, [d] + mid + [d]) != Replay(db, [d] + mid)
  {
    var mid := CatchUp(db, d.event, id);
    assert Deliver(db, d) == db;
    ReplayConcat(db, [d] + mid, [d]);
    ReplayConcat(db, [d], mid);
    assert Replay(db, [d]) == db by { assert [d][1..] == []; }
    var last := Replay(db, mid);
    if |mid| == 1 {
      assert mid[1..] == [];
      assert last == Deliver(db, mid[0]);
    } else {
      var next := Deliver(db, mid[0]);
      assert mid[1..] == [mid[1]] && [mid[1]][1..] == [];
      assert last == Replay(next, [mid[1]]);
      assert Replay(next, [mid[1]]) == Deliver(next, mid[1]);
    }
    assert Judge(last, d.id, d.event).Applied?;
    assert Replay(last, [d]) == Deliver(last, d) by { assert [d][1..] == []; }
    assert d.id in Deliver(last, d).processed && d.id !in last.processed;
  }

  /** Later copies are erasable exactly when the event does not arrive before its step. */
  lemma ErasableIffNotEarly(db: OrderDb, d: Delivery)
    requires d.event.saga in db.sagas && d.event.order in db.orders && d.id !in db.processed
    requires db.sagas[d.event.saga].step == ReleasingInventory ==> db.sagas[d.event.saga].status == Compensating
    ensures Erasable(db, d) <==> Rank(db.sagas[d.event.saga].step) <= Rank(d.event.Answers())
  {
    if Rank(db.sagas[d.event.saga].step) <= Rank(d.event.Answers()) {
      forall mid: seq<Delivery>, post: seq<Delivery>
        ensures Replay(db, [d] + mid + [d] + post) == Replay(db, [d] + mid + post)
      {
        CopyErased(db, d, mid, post);
      }
    } else {
      var id := FreshId(db.processed + {d.id});
      EarlyCopyMatters(db, d, id);
      var mid, post: seq<Delivery> := CatchUp(db, d.event, id), [];
      assert [d] + mid + [d] + post == [d] + mid + [d] && [d] + mid + post == [d] + mid;
    }
  }

  lemma CopyErased(db: OrderDb, d: Delivery, mid: seq<Delivery>, post: seq<Delivery>)
    requires NotEarly(db, d.event)
    ensures Replay(db, [d] + mid + [d] + post) == Replay(db, [d] + mid + post)
  {
    DeliverSpends(db, d);
    assert Replay(db, [d]) == Deliver(db, d) by { assert [d][1..] == []; }
    ReplayConcat(db, [d], mid);
    var u := Replay(db, [d] + mid);
    SpentThrough(Deliver(db, d), d, mid);
    SpentStays(u, d, d);
    assert Replay(u, [d]) == u by { assert [d][1..] == []; }
    ReplayConcat(db, [d] + mid, post);
    ReplayConcat(db, [d] + mid, [d] + post);
    ReplayConcat(u, [d], post);
    assert [d] + mid + [d] + post == ([d] + mid) + ([d] + post);
  }

  /** In the running system no event is ever early, so redelivering any of them is invisible. */
  lemma RedeliveryIsInvisible(w: World, id: MsgId, mid: seq<Delivery>, post: seq<Delivery>)
    requires Reachable(w) && id in w.sent && w.sent[id].IsEvent()
    ensures var d := Delivery(id, w.sent[id]);
      Replay(w.st.orderDb, [d] + mid + [d] + post) == Replay(w.st.orderDb, [d] + mid + post)
  {
    hide Inv, Reachable;
    SkipsAreOnlyLate(w, id);
    ReachableOk(w);
    CirculatingOk(w, w.sent[id]);
    SagaFacts(w, w.sent[id].saga);
    CopyErased(w.st.orderDb, Delivery(id, w.sent[id]), mid, post);
  }
}
