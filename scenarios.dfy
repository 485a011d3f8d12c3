/**
 * End-to-end scenarios of the router, proved on the functions and on a
 * server object: connections open and register, then one of them sends a
 * notification.
 */
module Scenarios {
  import opened Wrappers
  import opened Roles
  import opened Messages
  import opened Routing
  import opened Handles
  import opened Registry
  import opened Delivery
  import opened Router
  import opened Server

  /** The decoded registration message `{"tipoCliente": <role>}`. */
  function Registro(role: Role): (m: Option<Record>)
  {
    Some(map["tipoCliente" := Text(Name(role))])
  }

  /** Connection `h` opens and registers under `role`. */
  function Join(st: State, h: Handle, role: Role): (r: State)
    requires h !in st.clientes
    ensures r.clientes.Keys == st.clientes.Keys + {h}
  {
    Register(Open(st, h), h, role)
  }

  /** Sending the registration message right after opening is what `Join` does. */
  lemma JoinIsDispatch(st: State, h: Handle, role: Role, mensaje: string)
    requires h !in st.clientes
    ensures Dispatch(Open(st, h), h, mensaje, Registro(role)) == Reaction(Join(st, h, role), [])
  {
    ParseName(role);
    assert Classify(Registro(role)) == Registration(role);
  }

  /** A fresh connection that registers is appended to its role's list; no other list changes. */
  lemma JoinLists(st: State, h: Handle, role: Role)
    requires h !in st.clientes && h !in Listed(st.tipoCliente, role)
    ensures Join(st, h, role).tipoCliente == st.tipoCliente[role := Listed(st.tipoCliente, role) + [h]]
  {
  }

  /** A kitchen `k` and then a waiter `w` have opened and registered. */
  lemma KitchenAndWaiter(k: Handle, w: Handle)
    requires k != w
    ensures var st := Join(Join(EMPTY, k, Cocina), w, Camarero);
      && w in st.clientes
      && Listed(st.tipoCliente, Cocina) == [k] && Listed(st.tipoCliente, Camarero) == [w]
  {
    JoinLists(EMPTY, k, Cocina);
    var s1 := Join(EMPTY, k, Cocina);
    assert s1.tipoCliente[Cocina] == [k] && s1.tipoCliente[Camarero] == [];
    JoinLists(s1, w, Camarero);
  }

  /**
   * A kitchen and a waiter are registered; the waiter announces a new order:
   * the kitchen receives the exact payload and the waiter nothing.
   */
  lemma NewOrderScenario(k: Handle, w: Handle, mensaje: string)
    requires k != w
    ensures
      var st := Join(Join(EMPTY, k, Cocina), w, Camarero);
      Dispatch(st, w, mensaje, Some(map["tipo" := Text("nuevoPedido"), "id" := Other])).sends
        == [Send(k, mensaje)]
  {
    KitchenAndWaiter(k, w);
    NewOrderFromWaiter(Join(Join(EMPTY, k, Cocina), w, Camarero), k, w, mensaje);
  }

  lemma NewOrderFromWaiter(st: State, k: Handle, w: Handle, mensaje: string)
    requires k != w && w in st.clientes
    requires Listed(st.tipoCliente, Cocina) == [k] && Listed(st.tipoCliente, Camarero) == [w]
    ensures Dispatch(st, w, mensaje, Some(map["tipo" := Text("nuevoPedido"), "id" := Other])).sends
      == [Send(k, mensaje)]
  {
    var data := map["tipo" := Text("nuevoPedido"), "id" := Other];
    FieldNamesDiffer();
    ClassifyTyped(data);
    DispatchNotification(st, w, mensaje, Some(data), Text("nuevoPedido"));
    RoutingTable();
    KitchenOnlyReceivers(st.tipoCliente, k, w);
    SendsOne(k, mensaje);
  }

  lemma KitchenOnlyReceivers(idx: Index, k: Handle, w: Handle)
    requires k != w
    requires Listed(idx, Cocina) == [k] && Listed(idx, Camarero) == [w]
    ensures AllReceivers(idx, [Cocina, Camarero], Some(w)) == [k]
  {
    ReceiversPair(idx, Cocina, Camarero, Some(w));
    ExceptOne(k, Some(w));
    ExceptOne(w, Some(w));
    assert [k] + [] == [k];
  }

  /** Two kitchens `k1`, `k2` and then a waiter `w` open and register, passing states `s1`, `s2`, `s3`. */
  lemma TwoKitchensAndWaiter(k1: Handle, k2: Handle, w: Handle, s1: State, s2: State, s3: State)
    requires k1 != k2 && k1 != w && k2 != w
    requires s1 == Join(EMPTY, k1, Cocina)
    requires k2 !in s1.clientes && s2 == Join(s1, k2, Cocina)
    requires w !in s2.clientes && s3 == Join(s2, w, Camarero)
    ensures k1 in s3.clientes
    ensures Listed(s3.tipoCliente, Cocina) == [k1, k2] && Listed(s3.tipoCliente, Camarero) == [w]
  {
    EmptyListed(Cocina);
    EmptyListed(Camarero);
    JoinStep(EMPTY, k1, Cocina, [], []);
    EmptyConcat([k1]);
    JoinStep(s1, k2, Cocina, [k1], []);
    PairConcat(k1, k2);
    JoinStep(s2, w, Camarero, [k1, k2], []);
    EmptyConcat([w]);
  }

  /** The kitchen and waiter lists after a fresh connection joins. */
  lemma JoinStep(st: State, h: Handle, role: Role, c: seq<Handle>, m: seq<Handle>)
    requires h !in st.clientes && h !in Listed(st.tipoCliente, role)
    requires Listed(st.tipoCliente, Cocina) == c && Listed(st.tipoCliente, Camarero) == m
    ensures Listed(Join(st, h, role).tipoCliente, Cocina) == if role == Cocina then c + [h] else c
    ensures Listed(Join(st, h, role).tipoCliente, Camarero) == if role == Camarero then m + [h] else m
  {
    JoinListed(st, h, role, Cocina);
    JoinListed(st, h, role, Camarero);
  }

  lemma EmptyListed(x: Role)
    ensures Listed(EMPTY.tipoCliente, x) == []
  {
  }

  /** The list of one role after a fresh connection joins. */
  lemma JoinListed(st: State, h: Handle, role: Role, x: Role)
    requires h !in st.clientes && h !in Listed(st.tipoCliente, role)
    ensures Listed(Join(st, h, role).tipoCliente, x)
      == if x == role then Listed(st.tipoCliente, role) + [h] else Listed(st.tipoCliente, x)
  {
    JoinLists(st, h, role);
  }

  /**
   * Two kitchens and a waiter are registered; the first kitchen reports an
   * order ready: the waiter receives it first, then the other kitchen, and
   * the sender nothing.
   */
  lemma OrderReadyScenario(k1: Handle, k2: Handle, w: Handle, mensaje: string)
    requires k1 != k2 && k1 != w && k2 != w
    ensures
      var st := Join(Join(Join(EMPTY, k1, Cocina), k2, Cocina), w, Camarero);
      Dispatch(st, k1, mensaje, Some(map["tipo" := Text("pedidoListo")])).sends
        == [Send(w, mensaje), Send(k2, mensaje)]
  {
    var s1 := Join(EMPTY, k1, Cocina);
    var s2 := Join(s1, k2, Cocina);
    var s3 := Join(s2, w, Camarero);
    TwoKitchensAndWaiter(k1, k2, w, s1, s2, s3);
    ReadyFromFirstKitchen(s3, k1, k2, w, mensaje);
  }

  lemma ReadyFromFirstKitchen(st: State, k1: Handle, k2: Handle, w: Handle, mensaje: string)
    requires k1 != k2 && k1 != w && k1 in st.clientes
    requires Listed(st.tipoCliente, Cocina) == [k1, k2] && Listed(st.tipoCliente, Camarero) == [w]
    ensures Dispatch(st, k1, mensaje, Some(map["tipo" := Text("pedidoListo")])).sends
      == [Send(w, mensaje), Send(k2, mensaje)]
  {
    var data := map["tipo" := Text("pedidoListo")];
    FieldNamesDiffer();
    ClassifyTyped(data);
    DispatchNotification(st, k1, mensaje, Some(data), Text("pedidoListo"));
    RoutingTable();
    WaiterThenKitchenReceivers(st.tipoCliente, k1, k2, w);
    SendsTwo(w, k2, mensaje);
  }

  lemma WaiterThenKitchenReceivers(idx: Index, k1: Handle, k2: Handle, w: Handle)
    requires k1 != k2 && k1 != w
    requires Listed(idx, Cocina) == [k1, k2] && Listed(idx, Camarero) == [w]
    ensures AllReceivers(idx, [Camarero, Cocina], Some(k1)) == [w, k2]
  {
    ReceiversPair(idx, Camarero, Cocina, Some(k1));
    ExceptOne(w, Some(k1));
    ExceptTwo(k1, k2, Some(k1));
    ExceptOne(k1, Some(k1));
    assert [w] + [k2] == [w, k2];
  }

  /**
   * The new-order scenario on a server object: a kitchen and a waiter connect and
   * register, then the waiter announces a new order. Only the kitchen is sent
   * anything, and it is sent the announcement unchanged.
   */
  method NewOrderOnServer(k: Handle, w: Handle, mensaje: string) returns (enviados: seq<Send>)
    requires k != w
    ensures enviados == [Send(k, mensaje)]
  {
    var servidor := new ServidorPedidos();
    servidor.OnOpen(k);
    JoinIsDispatch(EMPTY, k, Cocina, "{\"tipoCliente\": \"cocina\"}");
    servidor.OnMessage(k, "{\"tipoCliente\": \"cocina\"}", Registro(Cocina));
    servidor.OnOpen(w);
    JoinIsDispatch(Join(EMPTY, k, Cocina), w, Camarero, "{\"tipoCliente\": \"camarero\"}");
    servidor.OnMessage(w, "{\"tipoCliente\": \"camarero\"}", Registro(Camarero));
    NewOrderScenario(k, w, mensaje);
    servidor.OnMessage(w, mensaje, Some(map["tipo" := Text("nuevoPedido"), "id" := Other]));
    enviados := servidor.outbox;
  }
}
