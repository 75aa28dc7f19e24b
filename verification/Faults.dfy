/**
 * What can go wrong is not ruled out by the step relation: in every world any message can be handled again, any owed
 * task can be lost, and any handler can die, each leaving everything else as it is.
 */
module Faults {
  import opened Types
  import opened Protocol

  /** A sent message can be taken up again, however often it was handled before; a command of an order only waits for
      the handler of that order to be done. */
  lemma AnySentMessageAgain(w: World, id: MsgId, k: nat)
    requires id in w.sent
    ensures w.sent[id].IsEvent() ==> Enabled(w, HandleEvent(id))
    ensures w.sent[id].ReserveInventory? && w.sent[id].order !in w.reserving ==> Enabled(w, ReserveStart(id))
    ensures w.sent[id].ReleaseInventory? && w.sent[id].order !in w.releasing ==> Enabled(w, ReleaseStart(id))
    ensures w.sent[id].ProcessPayment? && k !in w.paying ==> Enabled(w, PayStart(k, id))
  {}

  /** What is owed can be lost, and a message owed can go out under any new id, once for each time it is owed. */
  lemma AnyTaskLost(w: World, t: Task, id: MsgId)
    requires t in w.owed
    ensures Enabled(w, Drop(t))
    ensures Apply(w, Drop(t)).(owed := w.owed) == w && Apply(w, Drop(t)).owed + multiset{t} == w.owed
    ensures t.Publish? && id !in w.sent ==> Enabled(w, Send(t.message, id))
    ensures t.Publish? && id !in w.sent ==>
      Apply(w, Send(t.message, id)) == Apply(w, Drop(t)).(sent := w.sent[id := t.message])
    ensures t.Record? ==> Enabled(w, Act.RecordTerminal(t.saga, t.status))
  {}

  /** A handler can die at any time, and then only it is gone. */
  lemma AnyHandlerDies(w: World, o: OrderId, k: nat)
    ensures o in w.reserving ==> Enabled(w, ReserveAbort(o))
    ensures o in w.reserving ==> Apply(w, ReserveAbort(o)) == w.(reserving := w.reserving - {o})
    ensures o in w.releasing ==> Enabled(w, ReleaseAbort(o))
    ensures o in w.releasing ==> Apply(w, ReleaseAbort(o)) == w.(releasing := w.releasing - {o})
    ensures k in w.paying ==> Enabled(w, PayAbort(k)) && Apply(w, PayAbort(k)) == w.(paying := w.paying - {k})
  {}

  /** Recovery can list at any time, and can give up on any row that it has listed. */
  lemma AnyListing(w: World, status: SagaStatus, item: Snapshot)
    requires status == InProgress || status == Compensating
    ensures Enabled(w, List(status))
    ensures item in w.listed ==> Enabled(w, SkipItem(item))
    ensures item in w.listed ==> Apply(w, SkipItem(item)) == w.(listed := w.listed - multiset{item})
  {}
}
