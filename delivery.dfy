/**
 * Who receives a relayed message. `AllReceivers` is the handle order in which
 * the fan-out to a list of roles sends, `TableReceivers` that of the send to
 * the customers seated at one table; `Sends` turns a handle order into the
 * sends it causes.
 */
module Delivery {
  import opened Wrappers
  import opened Roles
  import opened Handles
  import opened Registry

  /** One call of `$cliente->send($mensaje)`. */
  datatype Send = Send(to: Handle, payload: string)

  /** The same payload sent to each handle in turn. */
  function Sends(hs: seq<Handle>, mensaje: string): (r: seq<Send>)
    ensures |r| == |hs|
  {
    if hs == [] then []
    else Sends(hs[..|hs| - 1], mensaje) + [Send(hs[|hs| - 1], mensaje)]
  }

  /** The i-th send goes to the i-th handle and carries the message unchanged. */
  lemma {:induction false} SendsEach(hs: seq<Handle>, mensaje: string)
    ensures forall i :: 0 <= i < |hs| ==> Sends(hs, mensaje)[i] == Send(hs[i], mensaje)
    decreases |hs|
  {
    if hs != [] {
      var init := hs[..|hs| - 1];
      SendsEach(init, mensaje);
      forall i | 0 <= i < |hs| ensures Sends(hs, mensaje)[i] == Send(hs[i], mensaje) {
        if i < |init| {
          assert hs[i] == init[i];
        }
      }
    }
  }

  /** Every send carries the message, and a handle is sent to exactly when it is in the list. */
  lemma SendsMembership(hs: seq<Handle>, mensaje: string)
    ensures forall s :: s in Sends(hs, mensaje) ==> s.payload == mensaje && s.to in hs
    ensures forall h :: Send(h, mensaje) in Sends(hs, mensaje) <==> h in hs
  {
    SendsEach(hs, mensaje);
    var r := Sends(hs, mensaje);
    forall h | h in hs ensures Send(h, mensaje) in r {
      var i :| 0 <= i < |hs| && hs[i] == h;
      assert r[i] == Send(h, mensaje);
    }
  }

  lemma SendsSnoc(hs: seq<Handle>, h: Handle, mensaje: string)
    ensures Sends(hs + [h], mensaje) == Sends(hs, mensaje) + [Send(h, mensaje)]
  {
    assert (hs + [h])[..|hs + [h]| - 1] == hs;
  }

  lemma {:induction false} SendsAppend(a: seq<Handle>, b: seq<Handle>, mensaje: string)
    ensures Sends(a + b, mensaje) == Sends(a, mensaje) + Sends(b, mensaje)
    decreases |b|
  {
    if b == [] {
      assert a + b == a;
    } else {
      var init, last := b[..|b| - 1], b[|b| - 1];
      assert b == init + [last];
      assert a + b == (a + init) + [last];
      SendsAppend(a, init, mensaje);
      SendsSnoc(a + init, last, mensaje);
      SendsSnoc(init, last, mensaje);
      ConcatAssoc(Sends(a, mensaje), Sends(init, mensaje), [Send(last, mensaje)]);
    }
  }

  lemma SendsOne(x: Handle, mensaje: string)
    ensures Sends([x], mensaje) == [Send(x, mensaje)]
  {
    assert [x][..0] == [];
  }

  lemma SendsTwo(x: Handle, y: Handle, mensaje: string)
    ensures Sends([x, y], mensaje) == [Send(x, mensaje), Send(y, mensaje)]
  {
    assert [x, y][..1] == [x];
    assert [x][..0] == [];
  }

  /** The handles listed under a role of the index; none when the role is not a key. */
  function Listed(idx: Index, r: Role): (hs: seq<Handle>)
  {
    if r in idx then idx[r] else []
  }

  /**
   * The fan-out over `destinos`: for each role in list order, its handles in
   * index order, skipping the sender. Who receives is stated by
   * `ReceiversMembership` and `ReceiversExactly`.
   */
  function AllReceivers(idx: Index, destinos: seq<Role>, emisor: Option<Handle>): (r: seq<Handle>)
    ensures destinos == [] ==> r == []
  {
    if destinos == [] then []
    else
      AllReceivers(idx, destinos[..|destinos| - 1], emisor)
        + Except(Listed(idx, destinos[|destinos| - 1]), emisor)
  }

  /** The fan-out over two roles: the first role's receivers, then the second's. */
  lemma ReceiversPair(idx: Index, a: Role, b: Role, emisor: Option<Handle>)
    ensures AllReceivers(idx, [a, b], emisor) == Except(Listed(idx, a), emisor) + Except(Listed(idx, b), emisor)
  {
    assert AllReceivers(idx, [a], emisor) == Except(Listed(idx, a), emisor) by {
      assert [a][..0] == [];
    }
    assert [a, b][..1] == [a];
  }

  /** One more role at the end adds its receivers at the end. */
  lemma ReceiversSnoc(idx: Index, d: seq<Role>, x: Role, emisor: Option<Handle>)
    ensures AllReceivers(idx, d + [x], emisor) == AllReceivers(idx, d, emisor) + Except(Listed(idx, x), emisor)
  {
    assert (d + [x])[..|d + [x]| - 1] == d;
  }

  /** Roles visited one after another: the sends for `d1 + d2` are those for `d1`, then `d2`. */
  lemma {:induction false} ReceiversAppend(idx: Index, d1: seq<Role>, d2: seq<Role>, emisor: Option<Handle>)
    ensures AllReceivers(idx, d1 + d2, emisor) == AllReceivers(idx, d1, emisor) + AllReceivers(idx, d2, emisor)
    decreases |d2|
  {
    if d2 == [] {
      assert d1 + d2 == d1;
    } else {
      var init, last := d2[..|d2| - 1], d2[|d2| - 1];
      assert d2 == init + [last];
      assert d1 + d2 == (d1 + init) + [last];
      var a, b := AllReceivers(idx, d1, emisor), AllReceivers(idx, init, emisor);
      var tail := Except(Listed(idx, last), emisor);
      ReceiversAppend(idx, d1, init, emisor);
      ReceiversSnoc(idx, d1 + init, last, emisor);
      ReceiversSnoc(idx, init, last, emisor);
      ConcatAssoc(a, b, tail);
    }
  }

  /** A handle receives exactly when it is listed under one of the roles and is not the sender. */
  lemma {:induction false} ReceiversMembership(idx: Index, destinos: seq<Role>, emisor: Option<Handle>, h: Handle)
    ensures h in AllReceivers(idx, destinos, emisor) <==>
      Some(h) != emisor && exists r :: r in destinos && h in Listed(idx, r)
    decreases |destinos|
  {
    if destinos != [] {
      var init, last := destinos[..|destinos| - 1], destinos[|destinos| - 1];
      assert destinos == init + [last];
      ReceiversMembership(idx, init, emisor, h);
      ExceptMembership(Listed(idx, last), emisor);
      if Some(h) != emisor && h !in AllReceivers(idx, destinos, emisor) {
        forall r | r in destinos ensures h !in Listed(idx, r) {
          if r != last {
            assert r in init;
          }
        }
      }
    }
  }

  /**
   * In a consistent registry a handle receives the fan-out exactly when it is
   * live, its role is one of the destinations, and it is not the sender.
   */
  lemma ReceiversExactly(st: State, destinos: seq<Role>, emisor: Option<Handle>, h: Handle)
    requires IndexedAreLive(st) && RolesAreIndexed(st)
    ensures h in AllReceivers(st.tipoCliente, destinos, emisor) <==>
      && h in st.clientes && st.clientes[h].tipo.Rol?
      && st.clientes[h].tipo.role in destinos && Some(h) != emisor
  {
    ReceiversMembership(st.tipoCliente, destinos, emisor, h);
    if h in AllReceivers(st.tipoCliente, destinos, emisor) {
      var r :| r in destinos && h in Listed(st.tipoCliente, r);
      assert r in st.tipoCliente && h in st.tipoCliente[r];
      assert h in st.clientes && st.clientes[h].tipo == Rol(r);
    } else if h in st.clientes && st.clientes[h].tipo.Rol? {
      var role := st.clientes[h].tipo.role;
      assert h in Listed(st.tipoCliente, role);
    }
  }

  /** A connection whose role is not among the destinations never receives. */
  lemma RoleIsolation(st: State, destinos: seq<Role>, emisor: Option<Handle>, h: Handle, role: Role)
    requires Valid(st) && h in st.clientes && st.clientes[h].tipo == Rol(role) && role !in destinos
    ensures h !in AllReceivers(st.tipoCliente, destinos, emisor)
  {
    ReceiversExactly(st, destinos, emisor, h);
  }

  /** Roles of the destination list are pairwise different. */
  predicate DistinctRoles(d: seq<Role>)
  {
    forall i, j :: 0 <= i < j < |d| ==> d[i] != d[j]
  }

  /** With distinct destination roles, each receiver gets the message once. */
  lemma {:induction false} ReceiversOnce(st: State, destinos: seq<Role>, emisor: Option<Handle>)
    requires IndexedAreLive(st) && RolesAreIndexed(st) && ListsNoDup(st) && DistinctRoles(destinos)
    ensures NoDup(AllReceivers(st.tipoCliente, destinos, emisor))
    decreases |destinos|
  {
    if destinos != [] {
      var init, last := destinos[..|destinos| - 1], destinos[|destinos| - 1];
      assert DistinctRoles(init) by {
        forall i, j | 0 <= i < j < |init| ensures init[i] != init[j] {
          assert init[i] == destinos[i] && init[j] == destinos[j];
        }
      }
      ReceiversOnce(st, init, emisor);
      var a := AllReceivers(st.tipoCliente, init, emisor);
      var b := Except(Listed(st.tipoCliente, last), emisor);
      if last in st.tipoCliente {
        ExceptNoDup(st.tipoCliente[last], emisor);
      }
      ExceptMembership(Listed(st.tipoCliente, last), emisor);
      forall x | x in b ensures x !in a {
        assert last in st.tipoCliente && x in st.tipoCliente[last];
        assert st.clientes[x].tipo == Rol(last);
        ReceiversExactly(st, init, emisor, x);
      }
      NoDupConcat(a, b);
    }
  }

  lemma NoDupConcat(a: seq<Handle>, b: seq<Handle>)
    requires NoDup(a) && NoDup(b)
    requires forall x :: x in b ==> x !in a
    ensures NoDup(a + b)
  {
    forall i, j | 0 <= i < j < |a + b| ensures (a + b)[i] != (a + b)[j] {
      if j < |a| {
        assert (a + b)[i] == a[i] && (a + b)[j] == a[j];
      } else if i < |a| {
        assert (a + b)[j] == b[j - |a|] && b[j - |a|] in b;
        assert (a + b)[i] == a[i];
      } else if i >= |a| {
        assert (a + b)[i] == b[i - |a|] && (a + b)[j] == b[j - |a|];
      }
    }
  }

  /** The handles of `s`, in order, whose connection is seated at table `numMesa`. */
  function AtTable(s: seq<Handle>, clientes: map<Handle, Connection>, numMesa: int): (r: seq<Handle>)
    ensures |r| <= |s|
  {
    if s == [] then []
    else
      var last := s[|s| - 1];
      AtTable(s[..|s| - 1], clientes, numMesa)
        + (if last in clientes && clientes[last].numMesa == Some(numMesa) then [last] else [])
  }

  /** The handles kept are exactly those of the list seated at the table. */
  lemma {:induction false} AtTableMembership(s: seq<Handle>, clientes: map<Handle, Connection>, numMesa: int)
    ensures forall x :: x in AtTable(s, clientes, numMesa) <==>
      x in s && x in clientes && clientes[x].numMesa == Some(numMesa)
    decreases |s|
  {
    if s != [] {
      var init, last := s[..|s| - 1], s[|s| - 1];
      assert s == init + [last];
      AtTableMembership(init, clientes, numMesa);
    }
  }

  /** The customers, in index order, whose table number is `numMesa`. */
  function TableReceivers(idx: Index, clientes: map<Handle, Connection>, numMesa: int): (r: seq<Handle>)
    ensures forall h :: h in r <==> h in Listed(idx, Cliente) && h in clientes && clientes[h].numMesa == Some(numMesa)
  {
    AtTableMembership(Listed(idx, Cliente), clientes, numMesa);
    AtTable(Listed(idx, Cliente), clientes, numMesa)
  }

  /**
   * In a consistent registry a handle is sent to by table exactly when it is
   * a live customer seated at that table.
   */
  lemma TableReceiversExactly(st: State, numMesa: int, h: Handle)
    requires Valid(st)
    ensures h in TableReceivers(st.tipoCliente, st.clientes, numMesa) <==>
      && h in st.clientes && st.clientes[h].tipo == Rol(Cliente)
      && st.clientes[h].numMesa == Some(numMesa)
  {
    AtTableMembership(Listed(st.tipoCliente, Cliente), st.clientes, numMesa);
    if h in st.clientes && st.clientes[h].tipo == Rol(Cliente) {
      assert h in st.tipoCliente[Cliente];
    }
  }

  /** While no connection has a table number, the send by table reaches nobody. */
  lemma UntabledReachesNobody(st: State, numMesa: int)
    requires Untabled(st)
    ensures TableReceivers(st.tipoCliente, st.clientes, numMesa) == []
  {
    AtTableUntabled(Listed(st.tipoCliente, Cliente), st.clientes, numMesa);
  }

  lemma {:induction false} AtTableUntabled(s: seq<Handle>, clientes: map<Handle, Connection>, numMesa: int)
    requires forall h :: h in clientes ==> clientes[h].numMesa.None?
    ensures AtTable(s, clientes, numMesa) == []
  {
    if s != [] {
      AtTableUntabled(s[..|s| - 1], clientes, numMesa);
    }
  }
}
