/** The fixed table from notification type to destination roles. */
module Routing {
  import opened Roles
  import opened Messages

  /** Types whose notifications go to the waiter first, then the kitchen. */
  const READY_TYPES: set<string> := {"productoListo", "pedidoListo"}

  /** Types whose notifications go to the kitchen first, then the waiter. */
  const KITCHEN_FIRST_TYPES: set<string> :=
    {"productoServido", "pedidoServido", "nuevoPedido", "pedidoEnPreparacion"}

  /**
   * Destination roles of a notification type. Every enrolled type goes to the
   * kitchen and the waiter, never to the bar or a customer; any other type
   * gets no destination at all.
   */
  function Destinos(tipo: Value): (d: seq<Role>)
    ensures d == [] <==> !(tipo.Text? && tipo.s in READY_TYPES + KITCHEN_FIRST_TYPES)
    ensures d != [] ==> |d| == 2 && d[0] != d[1] && {d[0], d[1]} == {Cocina, Camarero}
    ensures d != [] ==> (d[0] == Camarero <==> tipo.s in READY_TYPES)
    ensures Barra !in d && Cliente !in d
  {
    if !tipo.Text? then []
    else match tipo.s
      case "productoListo" => [Camarero, Cocina]
      case "pedidoListo" => [Camarero, Cocina]
      case "productoServido" => [Cocina, Camarero]
      case "pedidoServido" => [Cocina, Camarero]
      case "nuevoPedido" => [Cocina, Camarero]
      case "pedidoEnPreparacion" => [Cocina, Camarero]
      case _ => []
  }

  /** The table row by row. */
  lemma RoutingTable()
    ensures Destinos(Text("productoListo")) == [Camarero, Cocina]
    ensures Destinos(Text("pedidoListo")) == [Camarero, Cocina]
    ensures Destinos(Text("productoServido")) == [Cocina, Camarero]
    ensures Destinos(Text("pedidoServido")) == [Cocina, Camarero]
    ensures Destinos(Text("nuevoPedido")) == [Cocina, Camarero]
    ensures Destinos(Text("pedidoEnPreparacion")) == [Cocina, Camarero]
  {
  }
}
