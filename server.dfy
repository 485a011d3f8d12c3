/**
 * The server object itself. Its two fields are updated in place by the
 * connection callbacks; every `$cliente->send($mensaje)` is appended to
 * `outbox`, in the order the server performs it.
 */
module Server {
  import opened Wrappers
  import opened Roles
  import opened Messages
  import opened Routing
  import opened Handles
  import opened Registry
  import opened Delivery
  import opened Router

  class ServidorPedidos {
    var clientes: map<Handle, Connection>
    var tipoCliente: Index
    var outbox: seq<Send>

    /** The registry held by the two fields. */
    function Snapshot(): (st: State)
      reads this
    {
      State(clientes, tipoCliente)
    }

    /** The invariant every callback keeps: a consistent registry with no table numbers. */
    ghost predicate Valid()
      reads this
    {
      Registry.Valid(Snapshot()) && Untabled(Snapshot())
    }

    /** No connection yet, the four role keys with empty lists, nothing sent. */
    constructor()
      ensures Snapshot() == EMPTY && outbox == []
      ensures Valid()
    {
      clientes := map[];
      tipoCliente := map[Cocina := [], Barra := [], Camarero := [], Cliente := []];
      outbox := [];
      new;
      EmptyValid();
    }

    /** A new connection is stored with the attribute 'desconocido'. */
    method OnOpen(conn: Handle)
      requires Valid() && conn !in clientes
      modifies this
      ensures Snapshot() == Open(old(Snapshot()), conn) && outbox == old(outbox)
      ensures Valid()
    {
      OpenValid(Snapshot(), conn);
      clientes := clientes[conn := Connection(Desconocido, None)];
    }

    /**
     * One inbound message: a registration moves the sender to its new role,
     * a notification with destinations is relayed, anything else is dropped.
     */
    method OnMessage(from: Handle, mensaje: string, data: Option<Record>)
      requires Valid() && from in clientes
      modifies this
      ensures Snapshot() == Dispatch(old(Snapshot()), from, mensaje, data).after
      ensures outbox == old(outbox) + Dispatch(old(Snapshot()), from, mensaje, data).sends
      ensures Valid()
    {
      DispatchValid(Snapshot(), from, mensaje, data);
      match Classify(data)
      case Registration(role) =>
        var prev := clientes[from].tipo;
        if prev.Rol? && prev.role != role && prev.role in tipoCliente {
          tipoCliente := tipoCliente[prev.role := Except(tipoCliente[prev.role], Some(from))];
        }
        clientes := clientes[from := clientes[from].(tipo := Rol(role))];
        var lista := if role in tipoCliente then tipoCliente[role] else [];
        tipoCliente := tipoCliente[role := KeyedInsert(lista, from)];
      case Notification(tipo) =>
        var destinos := Destinos(tipo);
        if destinos != [] {
          EnviarATodos(mensaje, destinos, Some(from));
        }
      case _ =>
    }

    /** The connection is detached and taken out of the list of its role. */
    method OnClose(conn: Handle)
      requires Valid()
      modifies this
      ensures Snapshot() == Close(old(Snapshot()), conn) && outbox == old(outbox)
      ensures Valid()
    {
      CloseValid(Snapshot(), conn);
      if conn in clientes {
        var tipo := clientes[conn].tipo;
        clientes := clientes - {conn};
        if tipo.Rol? && tipo.role in tipoCliente {
          tipoCliente := tipoCliente[tipo.role := Except(tipoCliente[tipo.role], Some(conn))];
        }
      }
    }

    /**
     * For each destination role in order, sends to every handle listed under
     * it, in list order, except the sender.
     */
    method EnviarATodos(mensaje: string, destinos: seq<Role>, emisor: Option<Handle>)
      modifies this`outbox
      ensures outbox == old(outbox) + Sends(AllReceivers(tipoCliente, destinos, emisor), mensaje)
    {
      var i := 0;
      while i < |destinos|
        invariant 0 <= i <= |destinos|
        invariant outbox == old(outbox) + Sends(AllReceivers(tipoCliente, destinos[..i], emisor), mensaje)
      {
        RoleStep(old(outbox), tipoCliente, destinos, i, emisor, mensaje);
        EnviarALista(mensaje, Listed(tipoCliente, destinos[i]), emisor);
        i := i + 1;
      }
      assert destinos[..i] == destinos;
    }

    /** The inner loop of the fan-out: every handle of one role's list in order, skipping the sender. */
    method EnviarALista(mensaje: string, lista: seq<Handle>, emisor: Option<Handle>)
      modifies this`outbox
      ensures outbox == old(outbox) + Sends(Except(lista, emisor), mensaje)
    {
      ghost var sent: seq<Handle> := [];
      var j := 0;
      while j < |lista|
        invariant 0 <= j <= |lista|
        invariant sent == Except(lista[..j], emisor)
        invariant outbox == old(outbox) + Sends(sent, mensaje)
      {
        var cliente := lista[j];
        ListStep(old(outbox), lista, j, emisor, mensaje);
        if emisor != Some(cliente) {
          outbox := outbox + [Send(cliente, mensaje)];
          sent := sent + [cliente];
        }
        j := j + 1;
      }
      assert lista[..j] == lista;
    }

    /**
     * Sends to every customer, in list order, whose table number is set and
     * equal to `numMesa` (`UntabledReachesNobody`: while no connection has
     * a table number, nobody).
     */
    method EnviarACliente(mensaje: string, numMesa: int)
      modifies this`outbox
      ensures outbox == old(outbox) + Sends(TableReceivers(tipoCliente, clientes, numMesa), mensaje)
    {
      var lista := Listed(tipoCliente, Cliente);
      var conexiones := clientes;
      ghost var sent: seq<Handle> := [];
      var j := 0;
      while j < |lista|
        invariant 0 <= j <= |lista|
        invariant sent == AtTable(lista[..j], conexiones, numMesa)
        invariant outbox == old(outbox) + Sends(sent, mensaje)
      {
        var cliente := lista[j];
        TableStep(old(outbox), lista, j, conexiones, numMesa, mensaje);
        if cliente in conexiones && conexiones[cliente].numMesa == Some(numMesa) {
          outbox := outbox + [Send(cliente, mensaje)];
          sent := sent + [cliente];
        }
        j := j + 1;
      }
      assert lista[..j] == lista;
    }
  }

  /** One more role of the destinations: its receivers are sent to after the earlier roles'. */
  lemma RoleStep(base: seq<Send>, idx: Index, destinos: seq<Role>, i: nat, emisor: Option<Handle>, mensaje: string)
    requires i < |destinos|
    ensures var done := AllReceivers(idx, destinos[..i], emisor);
      var more := Except(Listed(idx, destinos[i]), emisor);
      (base + Sends(done, mensaje)) + Sends(more, mensaje)
        == base + Sends(AllReceivers(idx, destinos[..i + 1], emisor), mensaje)
  {
    var done := AllReceivers(idx, destinos[..i], emisor);
    var more := Except(Listed(idx, destinos[i]), emisor);
    SendsAppend(done, more, mensaje);
    ConcatAssoc(base, Sends(done, mensaje), Sends(more, mensaje));
    assert destinos[..i + 1] == destinos[..i] + [destinos[i]];
    ReceiversSnoc(idx, destinos[..i], destinos[i], emisor);
  }

  /** One more handle of the list: sent to, after the earlier ones, unless it is the sender. */
  lemma ListStep(base: seq<Send>, s: seq<Handle>, j: nat, emisor: Option<Handle>, mensaje: string)
    requires j < |s|
    ensures var sent := Except(s[..j], emisor);
      && Except(s[..j + 1], emisor) == (if emisor != Some(s[j]) then sent + [s[j]] else sent)
      && (base + Sends(sent, mensaje)) + [Send(s[j], mensaje)] == base + Sends(sent + [s[j]], mensaje)
  {
    var sent := Except(s[..j], emisor);
    assert s[..j + 1][..j] == s[..j];
    assert sent + [] == sent;
    SendsSnoc(sent, s[j], mensaje);
    ConcatAssoc(base, Sends(sent, mensaje), [Send(s[j], mensaje)]);
  }

  /** One more customer of the list: sent to, after the earlier ones, when seated at the table. */
  lemma TableStep(base: seq<Send>, s: seq<Handle>, j: nat, clientes: map<Handle, Connection>, numMesa: int, mensaje: string)
    requires j < |s|
    ensures var hit := s[j] in clientes && clientes[s[j]].numMesa == Some(numMesa);
      var sent := AtTable(s[..j], clientes, numMesa);
      && AtTable(s[..j + 1], clientes, numMesa) == (if hit then sent + [s[j]] else sent)
      && (base + Sends(sent, mensaje)) + [Send(s[j], mensaje)] == base + Sends(sent + [s[j]], mensaje)
  {
    var sent := AtTable(s[..j], clientes, numMesa);
    assert s[..j + 1][..j] == s[..j];
    assert sent + [] == sent;
    SendsSnoc(sent, s[j], mensaje);
    ConcatAssoc(base, Sends(sent, mensaje), [Send(s[j], mensaje)]);
  }
}
