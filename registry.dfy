/**
 * The two fields of the server: the live connections with their attributes,
 * and the role index. This module gives the intended transitions of the
 * registry: a connection sits under one role at most, and closing it removes
 * it from the index.
 */
module Registry {
  import opened Wrappers
  import opened Roles
  import opened Handles

  /**
   * The attributes the server attaches to a connection object: its role and
   * its table number. Nothing in the server ever sets the table number.
   */
  datatype Connection = Connection(tipo: Tipo, numMesa: Option<int>)

  /** Role key to the handles registered under it, in registration order. */
  type Index = map<Role, seq<Handle>>

  /** `$clientes` (with each connection's attributes) and `$tipoCliente`. */
  datatype State = State(clientes: map<Handle, Connection>, tipoCliente: Index)

  /** The state of a freshly constructed server: no connection, four empty roles. */
  const EMPTY: State := State(map[], map[Cocina := [], Barra := [], Camarero := [], Cliente := []])

  /** Every indexed handle is live and carries the role it is indexed under. */
  ghost predicate IndexedAreLive(st: State)
  {
    forall r, h :: r in st.tipoCliente && h in st.tipoCliente[r] ==>
      h in st.clientes && st.clientes[h].tipo == Rol(r)
  }

  /** Every live connection with a role is indexed under it. */
  ghost predicate RolesAreIndexed(st: State)
  {
    forall h :: h in st.clientes && st.clientes[h].tipo.Rol? ==>
      st.clientes[h].tipo.role in st.tipoCliente && h in st.tipoCliente[st.clientes[h].tipo.role]
  }

  ghost predicate Valid(st: State)
  {
    && st.tipoCliente.Keys == ALL_ROLES
    && IndexedAreLive(st)
    && RolesAreIndexed(st)
    && ListsNoDup(st)
  }

  /** No handle appears twice under one role. */
  ghost predicate ListsNoDup(st: State)
  {
    forall r :: r in st.tipoCliente ==> NoDup(st.tipoCliente[r])
  }

  /** No connection has a table number. */
  ghost predicate Untabled(st: State)
  {
    forall h :: h in st.clientes ==> st.clientes[h].numMesa.None?
  }

  lemma EmptyValid()
    ensures Valid(EMPTY) && Untabled(EMPTY)
    ensures forall r :: r in EMPTY.tipoCliente ==> EMPTY.tipoCliente[r] == []
  {
    forall r | r in EMPTY.tipoCliente ensures NoDup(EMPTY.tipoCliente[r]) {
    }
  }

  /** `attach($conn)` with the attribute 'desconocido'; the index is untouched. */
  function Open(st: State, h: Handle): (r: State)
    requires h !in st.clientes
    ensures r.clientes.Keys == st.clientes.Keys + {h}
    ensures r.clientes[h] == Connection(Desconocido, None)
    ensures forall g :: g in st.clientes ==> r.clientes[g] == st.clientes[g]
    ensures r.tipoCliente == st.tipoCliente
  {
    State(st.clientes[h := Connection(Desconocido, None)], st.tipoCliente)
  }

  /**
   * Registration under `role`, moving the connection: it leaves the list of
   * the role it held before (if another) and is stored under the new one.
   */
  function Register(st: State, h: Handle, role: Role): (r: State)
    requires h in st.clientes
    ensures r.clientes.Keys == st.clientes.Keys
    ensures r.clientes[h] == st.clientes[h].(tipo := Rol(role))
    ensures forall g :: g in st.clientes && g != h ==> r.clientes[g] == st.clientes[g]
    ensures r.tipoCliente.Keys == st.tipoCliente.Keys + {role}
    ensures r.tipoCliente[role] == KeyedInsert(if role in st.tipoCliente then st.tipoCliente[role] else [], h)
  {
    var prev := st.clientes[h].tipo;
    var idx := if prev.Rol? && prev.role != role && prev.role in st.tipoCliente
               then st.tipoCliente[prev.role := Except(st.tipoCliente[prev.role], Some(h))]
               else st.tipoCliente;
    var list := if role in idx then idx[role] else [];
    State(st.clientes[h := st.clientes[h].(tipo := Rol(role))], idx[role := KeyedInsert(list, h)])
  }

  /**
   * `detach($conn)`, and removal of the handle from the list of whichever
   * role it holds. Closing a handle that is not live changes nothing.
   */
  function Close(st: State, h: Handle): (r: State)
    ensures h !in r.clientes
    ensures r.clientes == st.clientes - {h}
    ensures r.tipoCliente.Keys == st.tipoCliente.Keys
  {
    if h !in st.clientes then st
    else
      var idx := match st.clientes[h].tipo
        case Desconocido => st.tipoCliente
        case Rol(role) =>
          if role in st.tipoCliente then st.tipoCliente[role := Except(st.tipoCliente[role], Some(h))]
          else st.tipoCliente;
      State(st.clientes - {h}, idx)
  }

  lemma OpenValid(st: State, h: Handle)
    requires Valid(st) && h !in st.clientes
    ensures Valid(Open(st, h))
    ensures Untabled(st) ==> Untabled(Open(st, h))
  {
  }

  /** Registration list by list: the new role gains the handle, the previous one loses it. */
  lemma RegisterLists(st: State, h: Handle, role: Role, x: Role)
    requires h in st.clientes && x in st.tipoCliente
    ensures x in Register(st, h, role).tipoCliente
    ensures Register(st, h, role).tipoCliente[x] ==
      (if x == role then KeyedInsert(st.tipoCliente[x], h)
       else if st.clientes[h].tipo == Rol(x) then Except(st.tipoCliente[x], Some(h))
       else st.tipoCliente[x])
    ensures forall g :: g in Register(st, h, role).tipoCliente[x] <==>
      (if x == role then g in st.tipoCliente[x] || g == h
       else if st.clientes[h].tipo == Rol(x) then g in st.tipoCliente[x] && g != h
       else g in st.tipoCliente[x])
  {
    ExceptMembership(st.tipoCliente[x], Some(h));
  }

  /** After registering, the handle is under the new role and under no other. */
  lemma RegisterMovesRole(st: State, h: Handle, role: Role)
    requires Valid(st) && h in st.clientes
    ensures forall x :: x in Register(st, h, role).tipoCliente ==>
      (h in Register(st, h, role).tipoCliente[x] <==> x == role)
  {
    var r := Register(st, h, role);
    forall x | x in r.tipoCliente
      ensures h in r.tipoCliente[x] <==> x == role
    {
      RegisterLists(st, h, role, x);
      if x != role && h in st.tipoCliente[x] {
        assert st.clientes[h].tipo == Rol(x);
      }
    }
  }

  /** Registering moves only the registering handle. */
  lemma RegisterKeepsOthers(st: State, h: Handle, role: Role, g: Handle, x: Role)
    requires Valid(st) && h in st.clientes && g != h && x in st.tipoCliente
    ensures g in Register(st, h, role).tipoCliente[x] <==> g in st.tipoCliente[x]
  {
    RegisterLists(st, h, role, x);
  }

  lemma RegisterValid(st: State, h: Handle, role: Role)
    requires Valid(st) && h in st.clientes
    ensures Valid(Register(st, h, role))
    ensures Untabled(st) ==> Untabled(Register(st, h, role))
  {
    var r := Register(st, h, role);
    assert r.tipoCliente.Keys == ALL_ROLES;
    RegisterIndexedAreLive(st, h, role);
    RegisterRolesAreIndexed(st, h, role);
    forall x | x in r.tipoCliente
      ensures NoDup(r.tipoCliente[x])
    {
      RegisterLists(st, h, role, x);
      if x == role {
        KeyedInsertNoDup(st.tipoCliente[x], h);
      } else if st.clientes[h].tipo == Rol(x) {
        ExceptNoDup(st.tipoCliente[x], Some(h));
      }
    }
  }

  lemma RegisterIndexedAreLive(st: State, h: Handle, role: Role)
    requires IndexedAreLive(st) && h in st.clientes && role in st.tipoCliente
    ensures IndexedAreLive(Register(st, h, role))
  {
    var r := Register(st, h, role);
    forall x, g | x in r.tipoCliente && g in r.tipoCliente[x]
      ensures g in r.clientes && r.clientes[g].tipo == Rol(x)
    {
      RegisterLists(st, h, role, x);
      if g != h {
        assert g in st.tipoCliente[x];
      }
    }
  }

  lemma RegisterRolesAreIndexed(st: State, h: Handle, role: Role)
    requires Valid(st) && h in st.clientes
    ensures RolesAreIndexed(Register(st, h, role))
  {
    var r := Register(st, h, role);
    forall g | g in r.clientes && r.clientes[g].tipo.Rol?
      ensures r.clientes[g].tipo.role in r.tipoCliente && g in r.tipoCliente[r.clientes[g].tipo.role]
    {
      var x := r.clientes[g].tipo.role;
      RegisterLists(st, h, role, x);
    }
  }

  /** Registering twice under the same role leaves a single entry: the same state. */
  lemma {:induction false} RegisterIdempotent(st: State, h: Handle, role: Role)
    requires h in st.clientes
    ensures Register(Register(st, h, role), h, role) == Register(st, h, role)
  {
    var once := Register(st, h, role);
    var list := if role in st.tipoCliente then st.tipoCliente[role] else [];
    assert h in once.tipoCliente[role];
    assert once.clientes[h].tipo == Rol(role);
    assert once.clientes[h := once.clientes[h].(tipo := Rol(role))] == once.clientes;
    assert once.tipoCliente[role := KeyedInsert(once.tipoCliente[role], h)] == once.tipoCliente;
  }

  /** Closing list by list: only the list of the closed connection's role loses it. */
  lemma CloseLists(st: State, h: Handle, x: Role)
    requires x in st.tipoCliente
    ensures x in Close(st, h).tipoCliente
    ensures forall g :: g in Close(st, h).tipoCliente[x] <==>
      g in st.tipoCliente[x] && !(g == h && h in st.clientes && st.clientes[h].tipo == Rol(x))
  {
    ExceptMembership(st.tipoCliente[x], Some(h));
  }

  /** After closing, the handle is neither live nor under any role; nothing else moves. */
  lemma CloseRemoves(st: State, h: Handle)
    requires Valid(st)
    ensures forall x :: x in Close(st, h).tipoCliente ==> h !in Close(st, h).tipoCliente[x]
    ensures forall x, g :: x in st.tipoCliente && g != h ==>
      (g in Close(st, h).tipoCliente[x] <==> g in st.tipoCliente[x])
  {
    var r := Close(st, h);
    forall x | x in r.tipoCliente
      ensures h !in r.tipoCliente[x]
      ensures forall g :: g != h ==> (g in r.tipoCliente[x] <==> g in st.tipoCliente[x])
    {
      CloseLists(st, h, x);
      if h in st.tipoCliente[x] {
        assert st.clientes[h].tipo == Rol(x);
      }
    }
  }

  lemma CloseValid(st: State, h: Handle)
    requires Valid(st)
    ensures Valid(Close(st, h))
    ensures Untabled(st) ==> Untabled(Close(st, h))
  {
    CloseRemoves(st, h);
    CloseIndexedAreLive(st, h);
    CloseListsNoDup(st, h);
  }

  lemma CloseIndexedAreLive(st: State, h: Handle)
    requires IndexedAreLive(st)
    ensures IndexedAreLive(Close(st, h))
  {
    var r := Close(st, h);
    forall x, g | x in r.tipoCliente && g in r.tipoCliente[x]
      ensures g in r.clientes && r.clientes[g].tipo == Rol(x)
    {
      CloseLists(st, h, x);
      assert g in st.tipoCliente[x];
    }
  }

  lemma CloseListsNoDup(st: State, h: Handle)
    requires ListsNoDup(st)
    ensures ListsNoDup(Close(st, h))
  {
    var r := Close(st, h);
    forall x | x in r.tipoCliente
      ensures NoDup(r.tipoCliente[x])
    {
      if h in st.clientes && st.clientes[h].tipo == Rol(x) {
        ExceptNoDup(st.tipoCliente[x], Some(h));
      }
    }
  }
}
