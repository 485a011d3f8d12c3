/**
 * The two registry transitions as the server actually performs them, next
 * to the corrected ones of `Registry`. Re-registration adds the connection
 * under its new role without taking it out of the old one, and the close
 * handler tests a field that does not exist, so it never touches the index.
 */
module AsWritten {
  import opened Wrappers
  import opened Roles
  import opened Messages
  import opened Routing
  import opened Handles
  import opened Registry
  import opened Delivery
  import opened Router

  /** Registration as written: the new role gains the handle; no list loses it. */
  function RegisterAsWritten(st: State, h: Handle, role: Role): (r: State)
    requires h in st.clientes
    ensures r.clientes.Keys == st.clientes.Keys
    ensures r.clientes[h].tipo == Rol(role)
    ensures forall g :: g in st.clientes && g != h ==> r.clientes[g] == st.clientes[g]
    ensures r.tipoCliente.Keys == st.tipoCliente.Keys + {role}
    ensures r.tipoCliente[role] == KeyedInsert(Listed(st.tipoCliente, role), h)
    ensures forall x :: x in st.tipoCliente && x != role ==> r.tipoCliente[x] == st.tipoCliente[x]
  {
    State(st.clientes[h := st.clientes[h].(tipo := Rol(role))],
          st.tipoCliente[role := KeyedInsert(Listed(st.tipoCliente, role), h)])
  }

  /** Closing as written: the connection is detached and the index is left as it was. */
  function CloseAsWritten(st: State, h: Handle): (r: State)
    ensures h !in r.clientes && r.clientes == st.clientes - {h}
    ensures r.tipoCliente == st.tipoCliente
  {
    State(st.clientes - {h}, st.tipoCliente)
  }

  /**
   * A connection that registers under a second role stays listed under the
   * first: the registry is no longer consistent.
   */
  lemma StaleRoleAfterReRegistration(st: State, h: Handle, a: Role, b: Role)
    requires Valid(st) && h in st.clientes && st.clientes[h].tipo == Rol(a) && a != b
    ensures h in RegisterAsWritten(st, h, a).tipoCliente[a]
    ensures h in RegisterAsWritten(st, h, b).tipoCliente[a] && h in RegisterAsWritten(st, h, b).tipoCliente[b]
    ensures !Valid(RegisterAsWritten(st, h, b))
  {
    var r := RegisterAsWritten(st, h, b);
    assert h in st.tipoCliente[a];
    assert !IndexedAreLive(r) by {
      assert a in r.tipoCliente && h in r.tipoCliente[a] && r.clientes[h].tipo != Rol(a);
    }
  }

  /**
   * Connection `h` registers as kitchen, then as waiter; connection `s`
   * announces a new order. As written, `h` receives the announcement twice.
   */
  lemma DoubleDelivery(h: Handle, s: Handle, mensaje: string, st: State)
    requires h != s
    requires st == Open(RegisterAsWritten(RegisterAsWritten(Open(EMPTY, h), h, Cocina), h, Camarero), s)
    ensures Dispatch(st, s, mensaje, Some(map["tipo" := Text("nuevoPedido")])).sends
      == [Send(h, mensaje), Send(h, mensaje)]
  {
    var s1 := RegisterAsWritten(Open(EMPTY, h), h, Cocina);
    assert Listed(s1.tipoCliente, Cocina) == [h] && Listed(s1.tipoCliente, Camarero) == [];
    var s2 := RegisterAsWritten(s1, h, Camarero);
    assert Listed(s2.tipoCliente, Cocina) == [h] && Listed(s2.tipoCliente, Camarero) == [h];
    assert st.tipoCliente == s2.tipoCliente;
    TwoRolesReceiveTwice(st, h, s, mensaje);
  }

  lemma TwoRolesReceiveTwice(st: State, h: Handle, s: Handle, mensaje: string)
    requires h != s && s in st.clientes
    requires Listed(st.tipoCliente, Cocina) == [h] && Listed(st.tipoCliente, Camarero) == [h]
    ensures Dispatch(st, s, mensaje, Some(map["tipo" := Text("nuevoPedido")])).sends
      == [Send(h, mensaje), Send(h, mensaje)]
  {
    var data := map["tipo" := Text("nuevoPedido")];
    FieldNamesDiffer();
    ClassifyTyped(data);
    DispatchNotification(st, s, mensaje, Some(data), Text("nuevoPedido"));
    RoutingTable();
    TwoRolesReceivers(st.tipoCliente, h, s);
    SendsTwo(h, h, mensaje);
  }

  lemma TwoRolesReceivers(idx: Index, h: Handle, s: Handle)
    requires h != s
    requires Listed(idx, Cocina) == [h] && Listed(idx, Camarero) == [h]
    ensures AllReceivers(idx, [Cocina, Camarero], Some(s)) == [h, h]
  {
    ReceiversPair(idx, Cocina, Camarero, Some(s));
    ExceptOne(h, Some(s));
    assert [h] + [h] == [h, h];
  }

  /** The same sequence of events with the corrected registration: `h` receives once. */
  lemma SingleDelivery(h: Handle, s: Handle, mensaje: string, st: State)
    requires h != s
    requires st == Open(Register(Register(Open(EMPTY, h), h, Cocina), h, Camarero), s)
    ensures Dispatch(st, s, mensaje, Some(map["tipo" := Text("nuevoPedido")])).sends == [Send(h, mensaje)]
  {
    var s1 := Register(Open(EMPTY, h), h, Cocina);
    assert Listed(s1.tipoCliente, Cocina) == [h];
    ExceptOne(h, Some(h));
    assert Listed(st.tipoCliente, Cocina) == [];
    assert Listed(st.tipoCliente, Camarero) == [h];
    WaiterOnlyReceivesOnce(st, h, s, mensaje);
  }

  lemma WaiterOnlyReceivesOnce(st: State, h: Handle, s: Handle, mensaje: string)
    requires h != s && s in st.clientes
    requires Listed(st.tipoCliente, Cocina) == [] && Listed(st.tipoCliente, Camarero) == [h]
    ensures Dispatch(st, s, mensaje, Some(map["tipo" := Text("nuevoPedido")])).sends == [Send(h, mensaje)]
  {
    var data := map["tipo" := Text("nuevoPedido")];
    FieldNamesDiffer();
    ClassifyTyped(data);
    DispatchNotification(st, s, mensaje, Some(data), Text("nuevoPedido"));
    RoutingTable();
    WaiterOnlyReceivers(st.tipoCliente, h, s);
    SendsOne(h, mensaje);
  }

  lemma WaiterOnlyReceivers(idx: Index, h: Handle, s: Handle)
    requires h != s
    requires Listed(idx, Cocina) == [] && Listed(idx, Camarero) == [h]
    ensures AllReceivers(idx, [Cocina, Camarero], Some(s)) == [h]
  {
    ReceiversPair(idx, Cocina, Camarero, Some(s));
    ExceptOne(h, Some(s));
    assert [] + [h] == [h];
  }

  /** As written, a closed connection stays listed under its role: the registry is inconsistent. */
  lemma CloseLeavesStaleEntry(st: State, h: Handle, role: Role)
    requires Valid(st) && h in st.clientes && st.clientes[h].tipo == Rol(role)
    ensures h !in CloseAsWritten(st, h).clientes && h in CloseAsWritten(st, h).tipoCliente[role]
    ensures !Valid(CloseAsWritten(st, h))
  {
    var r := CloseAsWritten(st, h);
    assert h in st.tipoCliente[role];
    assert !IndexedAreLive(r) by {
      assert role in r.tipoCliente && h in r.tipoCliente[role] && h !in r.clientes;
    }
  }

  /**
   * As written, a closed connection is still sent every notification whose
   * destinations include its role.
   */
  lemma ClosedStillReceives(st: State, h: Handle, role: Role, destinos: seq<Role>, from: Handle)
    requires Valid(st) && h in st.clientes && st.clientes[h].tipo == Rol(role)
    requires role in destinos && from != h
    ensures h in AllReceivers(CloseAsWritten(st, h).tipoCliente, destinos, Some(from))
  {
    assert h in Listed(st.tipoCliente, role);
    ReceiversMembership(st.tipoCliente, destinos, Some(from), h);
  }

  /** With the corrected close, a closed connection receives nothing. */
  lemma ClosedReceivesNothing(st: State, h: Handle, destinos: seq<Role>, emisor: Option<Handle>)
    requires Valid(st)
    ensures h !in AllReceivers(Close(st, h).tipoCliente, destinos, emisor)
  {
    CloseValid(st, h);
    ReceiversExactly(Close(st, h), destinos, emisor, h);
  }
}
