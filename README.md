# ServidorPedidos — a verified model of the order-notification router

`ServidorPedidos` is the WebSocket server of a restaurant ordering system.
Kitchen, bar, waiter and customer clients connect to it, declare their role
with a registration message (`{"tipoCliente": "cocina"}`), and then exchange
notifications (`{"tipo": "nuevoPedido", ...}`). The server keeps two
structures: the set of live connections (`$clientes`, each connection
carrying a role attribute), and the role index `$tipoCliente`, which maps each
of the four role keys to the connections registered under it. A notification
is relayed unchanged to the roles its type is routed to, never back to its
sender. Registrations and unknown or malformed payloads send nothing.

The model, module by module:

- `Roles`: the four role keys, and the membership test of a decoded role value among them.
- `Messages`: a decoded payload (`None` when decoding fails, otherwise a record of fields) and its classification as registration, notification, untyped or undecodable.
- `Routing`: the fixed table from notification type to destination roles.
- `Handles`: connection handles, and the insertion-ordered handle lists of the index (keyed insert, removal, skipping the sender).
- `Registry`: the two fields as a value `State`, the consistency invariant `Valid` and the three transitions open, register and close. Register and close are the corrected ones (see Findings).
- `Delivery`: who receives a fan-out (`AllReceivers`) or a send by table (`TableReceivers`), and the sends (`Sends`) a list of receivers causes.
- `Router`: the reaction to one inbound message (`Dispatch`) and its properties.
- `Server`: the class `ServidorPedidos`. Its fields are updated in place by the callbacks. Every `send` is appended to the field `outbox`, and each method is proved equal to the functions above.
- `AsWritten`: registration and close exactly as the code performs them. Lemmas exhibit what goes wrong with them.
- `Scenarios`: end-to-end scenarios, proved on the functions and on a server object.

The model follows the code in every respect but two: re-registration and
close. There the code evidently errs (see Findings), so `Registry.Register`,
`Registry.Close`, `Router.Dispatch` and the class `ServidorPedidos` carry the
corrected behaviour, and `AsWritten` keeps the code's own. Two behaviours of
the code that one might expect otherwise are kept as they are:

- A registration message whose string role value is not one of the four keys is not rejected as malformed. It falls through to the `tipo` test and is relayed when it also carries a routable `tipo` (`Messages.UnknownRoleFallsThrough`).
- A registration carries no table number, and nothing in the server stores one on a connection.

## Model

| member | source | states |
|---|---|---|
| Roles.Parse | servidorWebsocket.php:15-20 | a role value is accepted exactly when it equals one of the four index keys, and then it names that role |
| Roles.ParseName | servidorWebsocket.php:50 | every role's key passes the membership test and yields that role |
| Messages.RoleOf | servidorWebsocket.php:50 | a role is found exactly when `tipoCliente` is set, is a string and is one of the keys; the field then holds that role's key |
| Messages.Classify | servidorWebsocket.php:43-62 | undecodable exactly when decoding failed; registration exactly when a valid role is given; otherwise notification exactly when `tipo` is set (carrying it); untyped in the remaining case |
| Messages.ClassifyTyped | servidorWebsocket.php:59-64 | a record without `tipoCliente` and with `tipo` set is a notification of that type |
| Messages.UnknownRoleFallsThrough | servidorWebsocket.php:50-64 | any record whose `tipoCliente` is a string that is not a key, and whose `tipo` is set, is a notification of that `tipo` |
| Routing.Destinos | servidorWebsocket.php:69-84 | a type has destinations exactly when it is one of the six enrolled types; then exactly the kitchen and the waiter, once each, the waiter first exactly for the two ready types; never the bar or a customer |
| Routing.RoutingTable | servidorWebsocket.php:69-84 | the six rows of the table, each with its two destinations in order |
| Handles.KeyedInsert | servidorWebsocket.php:53 | storing under a key keeps every earlier entry and their order, adds the handle, and grows the list by one entry at most |
| Handles.KeyedInsertNoDup | servidorWebsocket.php:53 | storing under a key never creates a second entry for one handle |
| Handles.Except | servidorWebsocket.php:104 | removing a handle (the `unset`, or the sender skip at lines 127-129) never lengthens the list, and the removed handle is not in the result |
| Handles.ExceptMembership | servidorWebsocket.php:125-129 | skipping a handle keeps exactly the other handles of the list |
| Handles.ExceptNoDup | servidorWebsocket.php:104 | removing a handle from a list without duplicates leaves a list without duplicates |
| Registry.EmptyValid | servidorWebsocket.php:14-26 | the initial registry has four empty role lists, is consistent, and has no table numbers |
| Registry.Open | servidorWebsocket.php:29-33 | opening adds the handle as a live connection with the role 'desconocido' and no table number; no other connection and no list changes |
| Registry.OpenValid | servidorWebsocket.php:29-33 | opening keeps the registry consistent and without table numbers |
| Registry.Register | servidorWebsocket.php:50-55 | the corrected registration: the handle's attribute becomes the new role and its table number is kept, no other connection changes, no connection appears or disappears, and the new role's list is the keyed insert of the handle into it |
| Registry.RegisterLists | servidorWebsocket.php:50-55 | after a registration, the new role's list holds the handle, the previous role's list has lost it, and every other list is unchanged, both as lists and as sets of members |
| Registry.RegisterMovesRole | servidorWebsocket.php:50-55 | after a registration the handle is listed under the new role and under no other |
| Registry.RegisterKeepsOthers | servidorWebsocket.php:50-55 | a registration does not move any other connection between lists |
| Registry.RegisterValid | servidorWebsocket.php:50-55 | registration keeps the registry consistent and without table numbers |
| Registry.RegisterIdempotent | servidorWebsocket.php:53 | registering twice under one role gives the same registry as registering once |
| Registry.Close | servidorWebsocket.php:95-106 | the corrected close: exactly the handle is detached from the connections, and the index keeps its keys |
| Registry.CloseLists | servidorWebsocket.php:95-106 | closing removes the handle from the list of its own role only; every other entry stays |
| Registry.CloseRemoves | servidorWebsocket.php:95-106 | after closing, the handle is under no role, and every other handle is listed where it was |
| Registry.CloseValid | servidorWebsocket.php:95-106 | closing keeps the registry consistent and without table numbers |
| Delivery.Sends | servidorWebsocket.php:130 | one send per receiver |
| Delivery.SendsEach | servidorWebsocket.php:130 | the i-th send goes to the i-th receiver and carries the message unchanged |
| Delivery.SendsMembership | servidorWebsocket.php:130 | every send carries the message, and a handle is sent to exactly when it is a receiver |
| Delivery.SendsAppend | servidorWebsocket.php:123-131 | the sends to two receiver lists one after the other are the sends to their concatenation |
| Delivery.ReceiversAppend | servidorWebsocket.php:123 | the fan-out over two role lists in turn is the fan-out over their concatenation |
| Delivery.ReceiversMembership | servidorWebsocket.php:121-134 | a handle receives exactly when it is not the sender and is listed under one of the destination roles |
| Delivery.ReceiversExactly | servidorWebsocket.php:121-134 | in a consistent registry a handle receives exactly when it is live, its role is a destination, and it is not the sender |
| Delivery.RoleIsolation | servidorWebsocket.php:121-134 | a connection whose role is not a destination never receives |
| Delivery.ReceiversOnce | servidorWebsocket.php:121-134 | with distinct destination roles every receiver receives once |
| Delivery.AtTable | servidorWebsocket.php:140-143 | the handles kept from a list of customers are never more than the list |
| Delivery.AtTableMembership | servidorWebsocket.php:140-143 | the send by table keeps exactly the listed handles whose table number is set and equal to the requested one |
| Delivery.TableReceivers | servidorWebsocket.php:139-143 | a handle is sent to by table exactly when it is listed under the customer role, is a live connection, and has that table number set |
| Delivery.TableReceiversExactly | servidorWebsocket.php:137-150 | in a consistent registry a handle is sent to by table exactly when it is a live customer seated at that table |
| Delivery.UntabledReachesNobody | servidorWebsocket.php:137-150 | while no connection has a table number, the send by table reaches nobody |
| Router.Dispatch | servidorWebsocket.php:41-92 | every send carries the raw message and none goes to the sender; only a notification sends anything; only a registration changes the registry; no connection appears or disappears |
| Router.DispatchValid | servidorWebsocket.php:41-92 | every reaction keeps the registry consistent and without table numbers |
| Router.MalformedFailsClosed | servidorWebsocket.php:43-47 | an undecodable payload, or a record with neither a valid role nor a `tipo`, changes nothing and sends nothing |
| Router.UnknownTypeFailsClosed | servidorWebsocket.php:69-91 | a notification whose type is not in the routing table changes nothing and sends nothing |
| Router.RegistrationIsControlOnly | servidorWebsocket.php:50-55 | a registration sends nothing, sets the sender's role, leaves it under exactly that role, and moves nobody else |
| Router.NotificationReachesDestinations | servidorWebsocket.php:64-91 | a notification is sent exactly to the live connections other than the sender whose role is a destination of its type, each at most once |
| Scenarios.JoinIsDispatch | servidorWebsocket.php:29-55 | opening and then sending a registration message registers the connection and sends nothing |
| Scenarios.NewOrderScenario | servidorWebsocket.php:80-88 | with a kitchen and a waiter registered, a new order from the waiter reaches the kitchen alone, unchanged |
| Scenarios.OrderReadyScenario | servidorWebsocket.php:70-73 | with two kitchens and a waiter registered, an order ready from the first kitchen reaches the waiter, then the other kitchen |
| Scenarios.NewOrderOnServer | servidorWebsocket.php:29-92 | on a server object, after two connections and registrations, a new order from the waiter makes exactly one send, to the kitchen |
| AsWritten.RegisterAsWritten | servidorWebsocket.php:50-55 | as written, registration gives the handle the new role, leaves every other connection as it was, makes the new role's list the keyed insert of the handle into it, and leaves every other list, the previous role's included, as it was |
| AsWritten.CloseAsWritten | servidorWebsocket.php:98-105 | as written, closing detaches exactly the handle from the connections and leaves the index exactly as it was |
| AsWritten.StaleRoleAfterReRegistration | servidorWebsocket.php:50-55 | as written, a connection that registers under a second role stays listed under the first, and the registry is no longer consistent |
| AsWritten.DoubleDelivery | servidorWebsocket.php:50-55 | as written, a connection registered as kitchen and then as waiter receives a new-order announcement twice |
| AsWritten.SingleDelivery | servidorWebsocket.php:50-55 | with the corrected registration, the same events send the announcement once |
| AsWritten.CloseLeavesStaleEntry | servidorWebsocket.php:101-105 | as written, a closed connection stays listed under its role, and the registry is no longer consistent |
| AsWritten.ClosedStillReceives | servidorWebsocket.php:101-105 | as written, a closed connection is still sent every notification routed to its role |
| AsWritten.ClosedReceivesNothing | servidorWebsocket.php:95-106 | with the corrected close, a closed connection receives nothing |
| Server.ServidorPedidos.constructor | servidorWebsocket.php:14-26 | the new server has no connection, four empty role lists, nothing sent, and is consistent |
| Server.ServidorPedidos.OnOpen | servidorWebsocket.php:29-38 | the fields become those of `Registry.Open`; nothing is sent; consistency is kept |
| Server.ServidorPedidos.OnMessage | servidorWebsocket.php:41-92 | the fields become the registry of `Router.Dispatch`, and exactly its sends are appended, in order; consistency is kept |
| Server.ServidorPedidos.OnClose | servidorWebsocket.php:95-111 | the fields become those of the corrected `Registry.Close`; nothing is sent; consistency is kept |
| Server.ServidorPedidos.EnviarATodos | servidorWebsocket.php:121-134 | appends exactly the sends to `Delivery.AllReceivers`, in order |
| Server.ServidorPedidos.EnviarALista | servidorWebsocket.php:125-131 | appends a send to every handle of the list in order, except the sender |
| Server.ServidorPedidos.EnviarACliente | servidorWebsocket.php:137-150 | appends exactly the sends to `Delivery.TableReceivers`, in index order |

## Left out

- Server bootstrap (lines 153-166): reading the port from the environment or the command line, and building the Ratchet server stack. This is process setup, not routing.
- The `echo` log lines throughout, and `onError` (lines 114-118), which only logs and asks the transport to close the connection. That close reaches the model as `OnClose`.
- `spl_object_hash` and object identity: a connection is a natural-number `Handle`, unique among live connections.
- `json_decode` itself: the decoded result is a parameter of `OnMessage`. Decoding failure is `None`. A JSON scalar or list decodes to a value on which both `isset` tests fail, and the model passes such a value as an empty record.
- PHP loose comparison with non-strings. `in_array` at line 50 and the `switch` at line 69 compare loosely, so a boolean `true` would match the first role key or the first case. The table number at line 142 is also compared loosely. Field values other than strings and null are modelled as one opaque value that matches nothing.
- Transport behaviour, concurrency and the per-connection `send` (its buffering, and failures on a closed socket). A send is recorded in `outbox` when the server performs it.
- The table-number attribute: nothing in the server sets `numMesa`, so every reachable state has `Untabled`. `enviarACliente` is never called inside the class either. It is modelled and proved, but in every reachable state it reaches nobody.
- Server.ServidorPedidos.OnOpen: requires a handle that is not live. The transport opens each connection once, so the attach of an already-attached object is not modelled.
- Server.ServidorPedidos.OnMessage: requires the sender to be live. The transport delivers messages only on open connections.
- Server.ServidorPedidos.OnMessage: registration follows the corrected `Registry.Register`, and `OnClose` the corrected `Registry.Close`. The behaviour as written is modelled in `AsWritten` (see Findings).

## Findings

| source | as written | input that shows it | evidently intended | confidence | as-written member | corrected member |
|---|---|---|---|---|---|---|
| servidorWebsocket.php:50-55 | a registration adds the connection under its new role and never removes it from the previous role's list | connection A sends `{"tipoCliente":"cocina"}`, then `{"tipoCliente":"camarero"}`; connection B sends `{"tipo":"nuevoPedido"}`; A is sent the notification twice | a connection is listed under its current role only | not executed | AsWritten.DoubleDelivery | Registry.RegisterMovesRole |
| servidorWebsocket.php:101-105 | the close handler tests and unsets `$this->clientesTipo`, a property that does not exist, so the closed connection stays in `$tipoCliente` | connection A registers as `cocina` and closes; any notification routed to the kitchen is still sent to A | closing removes the connection from its role's list | not executed | AsWritten.ClosedStillReceives | Registry.CloseRemoves |
