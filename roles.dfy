/**
 * The roles a connection can declare. The role index of the server has one key
 * per role; a connection that has not registered yet carries the attribute
 * 'desconocido', which is not a key of the index.
 */
module Roles {
  import opened Wrappers

  /** The four keys of the role index: kitchen, bar, waiter, customer. */
  datatype Role = Cocina | Barra | Camarero | Cliente

  /** The role attribute a connection carries. */
  datatype Tipo = Desconocido | Rol(role: Role)

  const ALL_ROLES: set<Role> := {Cocina, Barra, Camarero, Cliente}

  /** The key under which a role is stored in the index, as it appears on the wire. */
  function Name(r: Role): (s: string)
  {
    match r
    case Cocina => "cocina"
    case Barra => "barra"
    case Camarero => "camarero"
    case Cliente => "cliente"
  }

  /**
   * The membership test of a decoded role value among the keys of the role
   * index: a string names a role exactly when it equals that role's key.
   */
  function Parse(s: string): (r: Option<Role>)
    ensures forall x :: Name(x) == s <==> r == Some(x)
  {
    if s == "cocina" then Some(Cocina)
    else if s == "barra" then Some(Barra)
    else if s == "camarero" then Some(Camarero)
    else if s == "cliente" then Some(Cliente)
    else None
  }

  /** Every role's key passes the membership test and names that role. */
  lemma ParseName(r: Role)
    ensures Parse(Name(r)) == Some(r)
  {
  }
}
