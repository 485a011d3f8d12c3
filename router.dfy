/**
 * What one inbound message does: a registration changes the registry and
 * sends nothing; a notification leaves the registry alone and is relayed,
 * unchanged, to the destination roles; anything else is dropped.
 */
module Router {
  import opened Wrappers
  import opened Roles
  import opened Messages
  import opened Routing
  import opened Handles
  import opened Registry
  import opened Delivery

  /** The registry after a message and the sends it caused, in order. */
  datatype Reaction = Reaction(after: State, sends: seq<Send>)

  /**
   * The reaction to `mensaje` from `from`, given what decoding made of it.
   * Every send carries the raw message and none goes back to the sender;
   * only a registration changes the registry, and it sends nothing.
   */
  function Dispatch(st: State, from: Handle, mensaje: string, data: Option<Record>): (o: Reaction)
    requires from in st.clientes
    ensures forall s :: s in o.sends ==> s.payload == mensaje && s.to != from
    ensures o.sends != [] ==> Classify(data).Notification?
    ensures !Classify(data).Registration? ==> o.after == st
    ensures o.after.clientes.Keys == st.clientes.Keys
  {
    match Classify(data)
    case Registration(role) => Reaction(Register(st, from, role), [])
    case Notification(tipo) =>
      var hs := AllReceivers(st.tipoCliente, Destinos(tipo), Some(from));
      var out := Sends(hs, mensaje);
      SendsMembership(hs, mensaje);
      ReceiversMembership(st.tipoCliente, Destinos(tipo), Some(from), from);
      Reaction(st, out)
    case _ => Reaction(st, [])
  }

  /** A notification of type `tipo` relays the message to the fan-out over its destinations. */
  lemma DispatchNotification(st: State, from: Handle, mensaje: string, data: Option<Record>, tipo: Value)
    requires from in st.clientes && Classify(data) == Notification(tipo)
    ensures Dispatch(st, from, mensaje, data)
      == Reaction(st, Sends(AllReceivers(st.tipoCliente, Destinos(tipo), Some(from)), mensaje))
  {
  }

  lemma DispatchValid(st: State, from: Handle, mensaje: string, data: Option<Record>)
    requires Valid(st) && from in st.clientes
    ensures Valid(Dispatch(st, from, mensaje, data).after)
    ensures Untabled(st) ==> Untabled(Dispatch(st, from, mensaje, data).after)
  {
    if Classify(data).Registration? {
      RegisterValid(st, from, Classify(data).role);
    }
  }

  /** An undecodable payload, or a record with neither a valid role nor a type, does nothing. */
  lemma MalformedFailsClosed(st: State, from: Handle, mensaje: string, data: Option<Record>)
    requires from in st.clientes
    requires data.None? || (RoleOf(data.value).None? && !IsSet(data.value, "tipo"))
    ensures Dispatch(st, from, mensaje, data) == Reaction(st, [])
  {
  }

  /** A notification whose type is not in the routing table does nothing. */
  lemma UnknownTypeFailsClosed(st: State, from: Handle, mensaje: string, rec: Record)
    requires from in st.clientes
    requires RoleOf(rec).None? && IsSet(rec, "tipo")
    requires !(rec["tipo"].Text? && rec["tipo"].s in READY_TYPES + KITCHEN_FIRST_TYPES)
    ensures Dispatch(st, from, mensaje, Some(rec)) == Reaction(st, [])
  {
  }

  /**
   * A registration sets the sender's role, leaves it under that role only,
   * moves no other connection and sends nothing.
   */
  lemma RegistrationIsControlOnly(st: State, from: Handle, mensaje: string, rec: Record, role: Role)
    requires Valid(st) && from in st.clientes
    requires "tipoCliente" in rec && rec["tipoCliente"] == Text(Name(role))
    ensures Dispatch(st, from, mensaje, Some(rec)).sends == []
    ensures Dispatch(st, from, mensaje, Some(rec)).after.clientes[from].tipo == Rol(role)
    ensures forall x :: x in ALL_ROLES ==>
      (from in Dispatch(st, from, mensaje, Some(rec)).after.tipoCliente[x] <==> x == role)
    ensures forall x, g :: x in ALL_ROLES && g != from ==>
      (g in Dispatch(st, from, mensaje, Some(rec)).after.tipoCliente[x] <==> g in st.tipoCliente[x])
  {
    ParseName(role);
    assert Classify(Some(rec)) == Registration(role);
    RegisterMovesRole(st, from, role);
    forall x, g | x in ALL_ROLES && g != from
      ensures g in Register(st, from, role).tipoCliente[x] <==> g in st.tipoCliente[x]
    {
      RegisterKeepsOthers(st, from, role, g, x);
    }
  }

  /**
   * A notification reaches exactly the live connections whose role is a
   * destination of its type, other than the sender, each of them once.
   */
  lemma NotificationReachesDestinations(st: State, from: Handle, mensaje: string, rec: Record, h: Handle)
    requires Valid(st) && from in st.clientes
    requires Classify(Some(rec)).Notification?
    ensures Send(h, mensaje) in Dispatch(st, from, mensaje, Some(rec)).sends <==>
      && h in st.clientes && st.clientes[h].tipo.Rol? && h != from
      && st.clientes[h].tipo.role in Destinos(rec["tipo"])
    ensures forall i, j :: 0 <= i < j < |Dispatch(st, from, mensaje, Some(rec)).sends| ==>
      Dispatch(st, from, mensaje, Some(rec)).sends[i].to != Dispatch(st, from, mensaje, Some(rec)).sends[j].to
  {
    var d := Destinos(rec["tipo"]);
    var hs := AllReceivers(st.tipoCliente, d, Some(from));
    ReceiversExactly(st, d, Some(from), h);
    ReceiversOnce(st, d, Some(from));
    SendsMembership(hs, mensaje);
    SendsEach(hs, mensaje);
  }
}
