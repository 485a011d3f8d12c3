/**
 * Classification of an inbound payload. Decoding itself is left to the JSON
 * library; the router sees either a failure or a record of named fields.
 */
module Messages {
  import opened Wrappers
  import opened Roles

  /** A decoded field value, as far as the router inspects it. */
  datatype Value = Null | Text(s: string) | Other

  /** A decoded JSON object: field name to value. */
  type Record = map<string, Value>

  /** `isset($data[$key])`: the key is present and its value is not null. */
  predicate IsSet(data: Record, key: string)
  {
    key in data && data[key] != Null
  }

  /** What a payload asks of the router. */
  datatype Kind =
    | Undecodable              // decoding gave no record
    | Registration(role: Role) // `tipoCliente` names one of the four role keys
    | Untyped                  // neither a valid `tipoCliente` nor a `tipo`
    | Notification(tipo: Value)

  /** The registration test: `tipoCliente` is set and is one of the role keys. */
  function RoleOf(data: Record): (r: Option<Role>)
    ensures r.Some? <==> IsSet(data, "tipoCliente") && data["tipoCliente"].Text?
                         && Parse(data["tipoCliente"].s).Some?
    ensures r.Some? ==> data["tipoCliente"] == Text(Name(r.value))
  {
    if IsSet(data, "tipoCliente") && data["tipoCliente"].Text? then Parse(data["tipoCliente"].s)
    else None
  }

  /**
   * A registration is recognised first; any other record (an unknown role
   * value included) is a notification when it has a `tipo`, and is ignored
   * otherwise.
   */
  function Classify(data: Option<Record>): (k: Kind)
    ensures k.Undecodable? <==> data.None?
    ensures k.Registration? <==> data.Some? && RoleOf(data.value).Some?
    ensures k.Registration? ==> data.value["tipoCliente"] == Text(Name(k.role))
    ensures k.Notification? <==> data.Some? && RoleOf(data.value).None? && IsSet(data.value, "tipo")
    ensures k.Notification? ==> k.tipo == data.value["tipo"] && k.tipo != Null
    ensures k.Untyped? <==> data.Some? && RoleOf(data.value).None? && !IsSet(data.value, "tipo")
  {
    match data
    case None => Undecodable
    case Some(rec) =>
      match RoleOf(rec)
      case Some(r) => Registration(r)
      case None => if IsSet(rec, "tipo") then Notification(rec["tipo"]) else Untyped
  }

  lemma FieldNamesDiffer()
    ensures "tipoCliente" != "tipo" && "tipoCliente" != "id"
  {
  }

  /** A record with a `tipo` and no `tipoCliente` is a notification of that type. */
  lemma ClassifyTyped(rec: Record)
    requires "tipoCliente" !in rec && IsSet(rec, "tipo")
    ensures Classify(Some(rec)) == Notification(rec["tipo"])
  {
  }

  /**
   * A string role value that is not one of the keys does not stop a
   * notification: the record is classified by its `tipo`.
   */
  lemma UnknownRoleFallsThrough(rec: Record)
    requires IsSet(rec, "tipoCliente") && rec["tipoCliente"].Text? && Parse(rec["tipoCliente"].s).None?
    requires IsSet(rec, "tipo")
    ensures Classify(Some(rec)) == Notification(rec["tipo"])
  {
  }
}
