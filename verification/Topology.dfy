/** The exchanges, queues and bindings that the three services declare, and where a routing key leads. */
module Topology {
  import opened Types

  const Commands := "saga.commands"
  const Events := "saga.events"
  const RetryExchange := "saga.retry"
  const DefaultExchange := ""

  const InventoryCommands := "inventory.commands"
  const PaymentCommands := "payment.commands"
  const OrderEvents := "order.events"

  const KeyReserve := "inventory.reserve"
  const KeyRelease := "inventory.release"
  const KeyProcess := "payment.process"
  const KeyRefund := "payment.refund"
  const KeyReserved := "inventory.reserved"
  const KeyReleased := "inventory.released"
  const KeyProcessed := "payment.processed"

  const Everything := "#"
  const RetryTtl := 5000

  function RetryOf(queue: string): string { queue + ".retry" }
  function DlqOf(queue: string): string { queue + ".dlq" }

  datatype Kind = Direct | Topic

  datatype Binding = Binding(queue: string, pattern: string, exchange: string)

  /** Queue arguments; no dead-letter key means that a message keeps its own. */
  datatype Arguments = Arguments(deadLetter: Option<string>, deadLetterKey: Option<string>, ttl: Option<int>)

  datatype Declared = Declared(exchanges: map<string, Kind>, queues: map<string, Arguments>, bindings: set<Binding>)

  // ----- routing -----

  predicate Matches(kind: Kind, pattern: string, key: string) {
    pattern == key || (kind.Topic? && pattern == Everything)
  }

  /** The queues that get a copy of a message; the default exchange leads to the queue its key names. */
  function Routed(d: Declared, exchange: string, key: string): set<string> {
    if exchange == DefaultExchange then (if key in d.queues then {key} else {})
    else if exchange !in d.exchanges then {}
    else set b | b in d.bindings && b.exchange == exchange && Matches(d.exchanges[exchange], b.pattern, key) :: b.queue
  }

  /** Where a queue sends a message it gives up or whose time has run out. */
  function DeadLettered(d: Declared, queue: string, key: string): set<string> {
    if queue in d.queues && d.queues[queue].deadLetter.Some? then
      Routed(d, d.queues[queue].deadLetter.value,
             if d.queues[queue].deadLetterKey.Some? then d.queues[queue].deadLetterKey.value else key)
    else {}
  }

  // ----- what one service sets up -----

  /** A service consumes `queue`, fed from `home` by `patterns`; `retried` keys come back from its retry queue.
      Its handler does something, and so can fail, for the `handled` keys only. */
  datatype Site = Site(queue: string, home: string, patterns: seq<string>, retried: seq<string>, handled: set<string>)

  const Inventories := Site(InventoryCommands, Commands, [KeyReserve, KeyRelease], [KeyReserve, KeyRelease],
                            {KeyReserve, KeyRelease})
  const Payments := Site(PaymentCommands, Commands, [KeyProcess, KeyRefund], [KeyProcess, KeyRefund], {KeyProcess})
  const Orders := Site(OrderEvents, Events, [Everything], [KeyReserved, KeyReleased, KeyProcessed],
                       {KeyReserved, KeyProcessed, KeyReleased})

  const Sites := {Inventories, Payments, Orders}

  function Bound(queue: string, patterns: seq<string>, exchange: string): set<Binding> {
    set i | 0 <= i < |patterns| :: Binding(queue, patterns[i], exchange)
  }

  function BindingsOf(s: Site): set<Binding> {
    Bound(s.queue, s.patterns, s.home) + Bound(RetryOf(s.queue), s.retried, RetryExchange)
  }

  function QueuesOf(s: Site): map<string, Arguments> {
    Three(s.queue, Arguments(Some(DefaultExchange), Some(DlqOf(s.queue)), None),
          DlqOf(s.queue), Arguments(None, None, None),
          RetryOf(s.queue), Arguments(Some(s.home), None, Some(RetryTtl)))
  }

  const Exchanges := Three(Commands, Direct, Events, Topic, RetryExchange, Direct)

  /** Three declarations in order; the last one of a name stands. */
  function Three<K, V>(a: K, x: V, b: K, y: V, c: K, z: V): map<K, V> {
    map[a := x][b := y][c := z]
  }

  /** What one more service adds; declarations are idempotent. */
  function WithSite(d: Declared, s: Site): Declared {
    Declared(d.exchanges + Exchanges, d.queues + QueuesOf(s), d.bindings + BindingsOf(s))
  }

  const NothingDeclared := Declared(map[], map[], {})
  const AllServices := WithSite(WithSite(WithSite(NothingDeclared, Inventories), Payments), Orders)

  // ----- the broker -----

  class Broker {
    var exchanges: map<string, Kind>
    var queues: map<string, Arguments>
    var bindings: set<Binding>

    function Declarations(): Declared
      reads this
    {
      Declared(exchanges, queues, bindings)
    }

    constructor ()
      ensures Declarations() == NothingDeclared
    {
      exchanges, queues, bindings := map[], map[], {};
    }

    method BindAll(queue: string, patterns: seq<string>, exchange: string)
      modifies this`bindings
      ensures bindings == old(bindings) + Bound(queue, patterns, exchange)
    {
      var i := 0;
      while i < |patterns|
        invariant 0 <= i <= |patterns|
        invariant bindings == old(bindings) + Bound(queue, patterns[..i], exchange)
      {
        bindings := bindings + {Binding(queue, patterns[i], exchange)};
        BoundNext(queue, patterns, exchange, i);
        i := i + 1;
      }
      assert patterns[..i] == patterns;
    }

    method Setup(s: Site)
      modifies this
      ensures Declarations() == WithSite(old(Declarations()), s)
    {
      hide Bound;
      exchanges := exchanges[Commands := Direct][Events := Topic];
      queues := queues[s.queue := Arguments(Some(DefaultExchange), Some(DlqOf(s.queue)), None)];
      queues := queues[DlqOf(s.queue) := Arguments(None, None, None)];
      BindAll(s.queue, s.patterns, s.home);
      exchanges := exchanges[RetryExchange := Direct];
      queues := queues[RetryOf(s.queue) := Arguments(Some(s.home), None, Some(RetryTtl))];
      BindAll(RetryOf(s.queue), s.retried, RetryExchange);
      Declared3(old(exchanges), Commands, Direct, Events, Topic, RetryExchange, Direct);
      Declared3(old(queues), s.queue, Arguments(Some(DefaultExchange), Some(DlqOf(s.queue)), None),
                DlqOf(s.queue), Arguments(None, None, None), RetryOf(s.queue), Arguments(Some(s.home), None,
                  Some(RetryTtl)));
    }
  }

  lemma Declared3<K, V>(m: map<K, V>, a: K, x: V, b: K, y: V, c: K, z: V)
    ensures m[a := x][b := y][c := z] == m + Three(a, x, b, y, c, z)
  {}

  lemma BoundNext(queue: string, patterns: seq<string>, exchange: string, i: nat)
    requires i < |patterns|
    ensures Bound(queue, patterns[..i + 1], exchange) ==
            Bound(queue, patterns[..i], exchange) + {Binding(queue, patterns[i], exchange)}
  {
    var next := patterns[..i + 1];
    forall b | b in Bound(queue, patterns[..i], exchange) + {Binding(queue, patterns[i], exchange)}
      ensures b in Bound(queue, next, exchange)
    {
      var k :| 0 <= k <= i && b == Binding(queue, patterns[k], exchange);
      assert next[k] == patterns[k];
    }
  }

  // ----- where a retried message goes -----

  lemma QueueNamesDiffer()
    ensures |InventoryCommands| == 18 && |RetryOf(InventoryCommands)| == 24 && |DlqOf(InventoryCommands)| == 22
    ensures |PaymentCommands| == 16 && |RetryOf(PaymentCommands)| == 22 && |DlqOf(PaymentCommands)| == 20
    ensures |OrderEvents| == 12 && |RetryOf(OrderEvents)| == 18 && |DlqOf(OrderEvents)| == 16
    ensures DlqOf(InventoryCommands) != RetryOf(PaymentCommands)
    ensures InventoryCommands != RetryOf(OrderEvents) && PaymentCommands != DlqOf(OrderEvents)
  {
    assert InventoryCommands[0] == DlqOf(InventoryCommands)[0] == 'i';
    assert PaymentCommands[0] == RetryOf(PaymentCommands)[0] == 'p';
    assert OrderEvents[0] == RetryOf(OrderEvents)[0] == DlqOf(OrderEvents)[0] == 'o';
  }

  /** Each service's declarations survive those of the other two. */
  lemma QueueTable(s: Site)
    requires s in Sites
    ensures s.queue in AllServices.queues && RetryOf(s.queue) in AllServices.queues &&
      DlqOf(s.queue) in AllServices.queues
    ensures AllServices.queues[s.queue] == Arguments(Some(DefaultExchange), Some(DlqOf(s.queue)), None)
    ensures AllServices.queues[RetryOf(s.queue)] == Arguments(Some(s.home), None, Some(RetryTtl))
  {
    hide BindingsOf, Exchanges, RetryOf, DlqOf;
    assert AllServices.queues == QueuesOf(Inventories) + QueuesOf(Payments) + QueuesOf(Orders);
    QueuesDisjoint(Inventories, Payments);
    QueuesDisjoint(Inventories, Orders);
    QueuesDisjoint(Payments, Orders);
    QueueRows(s);
  }

  lemma QueueRows(s: Site)
    requires s in Sites
    ensures var own := QueuesOf(s);
      && s.queue in own && RetryOf(s.queue) in own && DlqOf(s.queue) in own
      && own[s.queue] == Arguments(Some(DefaultExchange), Some(DlqOf(s.queue)), None)
      && own[RetryOf(s.queue)] == Arguments(Some(s.home), None, Some(RetryTtl))
  {
    hide RetryOf, DlqOf;
    QueueNamesDiffer();
  }

  lemma KeysDiffer()
    ensures |KeyReserve| == |KeyRelease| == |KeyProcessed| == 17 && KeyReserve != KeyRelease
    ensures KeyProcessed != KeyReserve && KeyProcessed != KeyRelease
    ensures |KeyProcess| == 15 && |KeyRefund| == 14
    ensures |KeyReserved| == |KeyReleased| == 18 && KeyReserved != KeyReleased
    ensures |Everything| == 1
    ensures |Commands| == 13 && |Events| == 11 && |RetryExchange| == 10 && |DefaultExchange| == 0
  {
    assert KeyReserve[12] == 's' && KeyRelease[12] == 'l';
    assert KeyReserved[12] == 's' && KeyReleased[12] == 'l';
    assert KeyReserve[0] == 'i' && KeyRelease[0] == 'i' && KeyProcessed[0] == 'p';
  }

  lemma ExchangeTable()
    ensures AllServices.exchanges == Exchanges
    ensures Commands in Exchanges && Exchanges[Commands] == Direct
    ensures Events in Exchanges && Exchanges[Events] == Topic
    ensures RetryExchange in Exchanges && Exchanges[RetryExchange] == Direct
  {
    KeysDiffer();
  }

  lemma InBound(queue: string, patterns: seq<string>, exchange: string, b: Binding)
    ensures b in Bound(queue, patterns, exchange) <==>
      b.queue == queue && b.exchange == exchange && b.pattern in patterns
  {
    if b.queue == queue && b.exchange == exchange && b.pattern in patterns {
      var i :| 0 <= i < |patterns| && patterns[i] == b.pattern;
      assert b == Binding(queue, patterns[i], exchange);
    }
  }

  predicate Binds(s: Site, b: Binding) {
    || (b.queue == s.queue && b.exchange == s.home && b.pattern in s.patterns)
    || (b.queue == RetryOf(s.queue) && b.exchange == RetryExchange && b.pattern in s.retried)
  }

  /** Which queue is bound where, over all three services. */
  lemma BindingTable(b: Binding)
    ensures b in AllServices.bindings <==> Binds(Inventories, b) || Binds(Payments, b) || Binds(Orders, b)
  {
    hide Bound, RetryOf;
    SiteBindings(Inventories, b);
    SiteBindings(Payments, b);
    SiteBindings(Orders, b);
  }

  lemma SiteBindings(s: Site, b: Binding)
    ensures b in BindingsOf(s) <==> Binds(s, b)
  {
    InBound(s.queue, s.patterns, s.home, b);
    InBound(RetryOf(s.queue), s.retried, RetryExchange, b);
  }

  /** A queue is reached exactly through one of its bindings. */
  lemma RoutedIff(exchange: string, key: string, queue: string)
    requires exchange in AllServices.exchanges && exchange != DefaultExchange
    ensures queue in Routed(AllServices, exchange, key) <==>
      || Binding(queue, key, exchange) in AllServices.bindings
      || (AllServices.exchanges[exchange].Topic? && Binding(queue, Everything, exchange) in AllServices.bindings)
  {
    hide Bound, RetryOf;
    var r := Routed(AllServices, exchange, key);
    if Binding(queue, key, exchange) in AllServices.bindings {
      assert Matches(AllServices.exchanges[exchange], Binding(queue, key, exchange).pattern, key);
    }
  }

  /** A failed message published to the retry exchange waits in its own service's retry queue and nowhere else,
      and from there comes back to the queue it failed in and to no other. */
  lemma RetriedComesBack(s: Site, key: string)
    requires s in Sites && key in s.handled
    ensures Routed(AllServices, s.home, key) == {s.queue}
    ensures Routed(AllServices, RetryExchange, key) == {RetryOf(s.queue)}
    ensures DeadLettered(AllServices, RetryOf(s.queue), key) == {s.queue}
  {
    hide Bound, Routed, AllServices, RetryOf, DlqOf;
    ExchangeTable();
    KeysDiffer();
    QueueTable(s);
    forall q: string
      ensures q in Routed(AllServices, s.home, key) <==> q == s.queue
      ensures q in Routed(AllServices, RetryExchange, key) <==> q == RetryOf(s.queue)
    {
      RoutedIff(s.home, key, q);
      RoutedIff(RetryExchange, key, q);
      BindingTable(Binding(q, key, s.home));
      BindingTable(Binding(q, Everything, s.home));
      BindingTable(Binding(q, key, RetryExchange));
    }
  }

  lemma MainNeedsABinding(s: Site, key: string)
    requires s in Sites
    ensures s.queue in Routed(AllServices, s.home, key) <==> key in s.patterns || s == Orders
  {
    hide Bound, Routed, AllServices;
    ExchangeTable();
    KeysDiffer();
    QueueNamesDiffer();
    RoutedIff(s.home, key, s.queue);
    BindingTable(Binding(s.queue, key, s.home));
    BindingTable(Binding(s.queue, Everything, s.home));
  }

  /** Any other key is dropped by the retry exchange, unless some service lists it. */
  lemma RetryNeedsABinding(s: Site, key: string)
    requires s in Sites
    ensures RetryOf(s.queue) in Routed(AllServices, RetryExchange, key) <==> key in s.retried
  {
    hide Bound, Routed, AllServices;
    ExchangeTable();
    KeysDiffer();
    QueueNamesDiffer();
    RoutedIff(RetryExchange, key, RetryOf(s.queue));
    BindingTable(Binding(RetryOf(s.queue), key, RetryExchange));
  }

  /** What arrives where, and what waits where when it fails, over the declarations of all three services. */
  lemma RoutingTable(key: string)
    ensures InventoryCommands in Routed(AllServices, Commands, key) <==>
      key == "inventory.reserve" || key == "inventory.release"
    ensures PaymentCommands in Routed(AllServices, Commands, key) <==>
      key == "payment.process" || key == "payment.refund"
    ensures OrderEvents in Routed(AllServices, Events, key)
    ensures RetryOf(InventoryCommands) in Routed(AllServices, RetryExchange, key) <==>
      key == "inventory.reserve" || key == "inventory.release"
    ensures RetryOf(PaymentCommands) in Routed(AllServices, RetryExchange, key) <==>
      key == "payment.process" || key == "payment.refund"
    ensures RetryOf(OrderEvents) in Routed(AllServices, RetryExchange, key) <==>
      key == "inventory.reserved" || key == "inventory.released" || key == "payment.processed"
  {
    hide Routed, AllServices, RetryOf;
    MainNeedsABinding(Inventories, key);
    MainNeedsABinding(Payments, key);
    MainNeedsABinding(Orders, key);
    RetryNeedsABinding(Inventories, key);
    RetryNeedsABinding(Payments, key);
    RetryNeedsABinding(Orders, key);
  }

  /** A message given up on goes to the service's dead-letter queue, which exists, whichever way it is sent there. */
  lemma GivenUpIsKept(s: Site, key: string)
    requires s in Sites
    ensures DeadLettered(AllServices, s.queue, key) == {DlqOf(s.queue)}
    ensures Routed(AllServices, DefaultExchange, DlqOf(s.queue)) == {DlqOf(s.queue)}
  {
    hide AllServices, DlqOf;
    QueueTable(s);
  }

  /** The dead-letter queue is fed by the default exchange only, and the retry queue never by it. */
  lemma WaitingIsNotBuried(s: Site, key: string)
    requires s in Sites
    ensures DlqOf(s.queue) !in Routed(AllServices, RetryExchange, key)
    ensures RetryOf(s.queue) !in Routed(AllServices, DefaultExchange, DlqOf(s.queue))
  {
    hide Bound, Routed, AllServices;
    ExchangeTable();
    KeysDiffer();
    QueueNamesDiffer();
    GivenUpIsKept(s, key);
    RoutedIff(RetryExchange, key, DlqOf(s.queue));
    BindingTable(Binding(DlqOf(s.queue), key, RetryExchange));
  }

  lemma QueuesDisjoint(a: Site, b: Site)
    requires a in Sites && b in Sites && a != b
    ensures QueuesOf(a).Keys !! QueuesOf(b).Keys
  {
    hide RetryOf, DlqOf;
    QueueNamesDiffer();
    forall s | s in Sites ensures QueuesOf(s).Keys == {s.queue, RetryOf(s.queue), DlqOf(s.queue)} { QueueKeys(s); }
  }

  lemma QueueKeys(s: Site)
    ensures QueuesOf(s).Keys == {s.queue, RetryOf(s.queue), DlqOf(s.queue)}
  {}

  lemma MergesCommute<K, V>(m: map<K, V>, x: map<K, V>, y: map<K, V>)
    ensures x.Keys !! y.Keys ==> m + x + y == m + y + x
    ensures m + x + x == m + x
  {}

  /** The services may start in any order, any number of times. */
  lemma SetupsCommute(d: Declared, a: Site, b: Site)
    requires a in Sites && b in Sites
    ensures WithSite(WithSite(d, a), b) == WithSite(WithSite(d, b), a)
    ensures WithSite(WithSite(d, a), a) == WithSite(d, a)
  {
    hide BindingsOf, QueuesOf, Exchanges, Three;
    MergesCommute(d.exchanges, Exchanges, Exchanges);
    MergesCommute(d.queues, QueuesOf(a), QueuesOf(b));
    if a != b { QueuesDisjoint(a, b); }
  }
}
