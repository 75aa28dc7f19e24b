/** The invariant holds in every reachable world, and every run only adds facts. */
module Runs {
  import opened Protocol
  import opened Invariant
  import opened Preservation

  ghost predicate Reachable(w: World) {
    exists budget, acts :: Path(Initial(budget), acts, w)
  }

  lemma InitialOk(budget: int)
    ensures Inv(Initial(budget))
  {}

  lemma StepKeeps(w: World, a: Act)
    requires Inv(w) && Enabled(w, a)
    ensures Inv(Apply(w, a)) && Mono(w, Apply(w, a))
  {
    hide Inv, Mono;
    hide DoCreateSku, DoCreateOrder, DoStartSaga, DoHandleEvent, DoSend, DoRecordTerminal, DoList, DoRecoverItem;
    hide AnswerReserve, DoReserveStart, DoReserveRead, DoReserveWrite, AnswerRelease, DoReleaseStart, DoReleaseWrite;
    hide DoPayStart, DoPayRead, DoPayWrite;
    var v := Apply(w, a);
    match a {
      case CreateSku(p, qty) => CreateSkuKeeps(w, v, p, qty);
      case CreateOrder(o, p, qty, amount) => CreateOrderKeeps(w, v, o, p, qty, amount);
      case StartSaga(s, o) => StartSagaKeeps(w, v, s, o);
      case HandleEvent(id) => HandleEventKeeps(w, v, id);
      case Send(m, id) => SendKeeps(w, v, m, id);
      case RecordTerminal(s, status) => RecordTerminalKeeps(w, v, s, status);
      case Drop(t) => DropKeeps(w, v, t);
      case List(status) => ListKeeps(w, v, status);
      case RecoverItem(item) => RecoverItemKeeps(w, v, item);
      case SkipItem(item) => SkipItemKeeps(w, v, item);
      case ReserveStart(id) => ReserveStartKeeps(w, v, id);
      case ReserveRead(o) => ReserveReadKeeps(w, v, o);
      case ReserveWrite(o) => ReserveWriteKeeps(w, v, o);
      case ReserveExhausted(o) => ReserveExhaustedKeeps(w, v, o);
      case ReserveAbort(o) => ReserveAbortKeeps(w, v, o);
      case ReleaseStart(id) => ReleaseStartKeeps(w, v, id);
      case ReleaseWrite(o) => ReleaseWriteKeeps(w, v, o);
      case ReleaseError(o) => ReleaseErrorKeeps(w, v, o);
      case ReleaseAbort(o) => ReleaseAbortKeeps(w, v, o);
      case PayStart(k, id) => PayStartKeeps(w, v, k, id);
      case PayRead(k) => PayReadKeeps(w, v, k);
      case PayWrite(k, tx, ok) => PayWriteKeeps(w, v, k, tx, ok);
      case PayAbort(k) => PayAbortKeeps(w, v, k);
    }
  }

  lemma {:induction false} PathKeeps(w: World, acts: seq<Act>, v: World)
    requires Inv(w) && Path(w, acts, v)
    ensures Inv(v) && Mono(w, v)
    decreases |acts|
  {
    hide Inv, Mono, Enabled, Apply;
    if acts == [] {
      NothingKept(w);
    } else {
      var u := Apply(w, acts[0]);
      StepKeeps(w, acts[0]);
      PathKeeps(u, acts[1..], v);
      MonoTransitive(w, u, v);
    }
  }

  lemma ReachableOk(w: World)
    requires Reachable(w)
    ensures Inv(w)
  {
    hide Inv, Mono;
    var budget, acts :| Path(Initial(budget), acts, w);
    InitialOk(budget);
    PathKeeps(Initial(budget), acts, w);
  }

  lemma ReachableFrom(w: World, acts: seq<Act>, v: World)
    requires Reachable(w) && Path(w, acts, v)
    ensures Reachable(v)
  {
    hide Path;
    var budget, before :| Path(Initial(budget), before, w);
    PathConcat(Initial(budget), before, w, acts, v);
  }
}
