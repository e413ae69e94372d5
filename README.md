# Drone alert hub: client registry, connection manager and client table

This project models three parts of a hub that links drones and monitoring
applications over WebSockets.

- **The client registry** (`client_registry.py`). It is a catalog of every
  drone and application the hub knows, and it records which of them are
  online. It has operations to register, unregister, update, authorize,
  remove and import clients, queries over the catalog, and the
  `is_client_authorized` check that gates every new connection.
- **The connection manager** (`websocket_manager.py`). It holds the drone
  sockets, the application sockets, a connection record per client and the
  last alert id of each drone. It accepts or refuses connections, sends
  personal messages, broadcasts to either role, classifies and stores
  alerts, de-duplicates and relays alert images, dispatches incoming
  messages by type, and reports connection counts. It also includes
  `serialize_datetime`, which turns database leaves into strings before a
  message is sent.
- **The management tool's table** (`manage_clients.py`). This covers
  `format_table` and the type/status filter that `list_clients` applies to
  the catalog.

## Structure

- `wrappers.dfy` defines `Option` and `Result`.
- `dicts.dfy` defines `Dicts.Dict`, an insertion-ordered Python dict. It is a
  key sequence plus a map, and `Valid` means the keys are distinct and match
  the map. It has `Put` (which keeps an existing key's position), `Remove`,
  `Values`, `Entries`, `Filter`, `Update` and the subsequence facts used by
  the filters.
- `json.dfy` defines a value a message can carry: the JSON kinds plus
  datetime, ObjectId, Timestamp and other BSON leaves. It also defines Python
  truthiness, `== 1` and `serialize_datetime`.
- `client_registry.dfy` holds `class ClientRegistry`, with:
  - the fields `clients` and `online`;
  - a ghost field `persisted`, which is what `save_registry` last wrote;
  - pure functions that specify registration, update and import.

  A value in `online_clients` is either the very object stored in the
  catalog (`Shared`, so in-place updates show through) or an older object
  that `import_clients` replaced in the catalog (`Detached`).
- `websocket_manager.dfy` holds the connection manager in two layers:
  - A datatype `World` gathers everything a handler reads or changes. This
    includes the registry's dicts, the alert and alert-image collections
    (sequences of documents with ids from a counter) and an outbox of every
    send and close.
  - Each handler is a pure step function on a `World` (`DisconnectW`,
    `BroadcastW`, `ConnectW`, `AlertW`, `ImageFromDroneW`, `DispatchW`, and
    so on). The lemmas next to each function state what the handler does.
  - `class WebSocketManager` keeps the same state in fields and calls the
    `ClientRegistry` object. Each of its methods is proved to move its state
    exactly as the matching step function does, and to keep the invariant
    `WorldValid`.
- `manage_clients.dfy` models `format_table`:
  - a method with the width loop (`MeasureColumns`) and a method with the
    line loop (`LayOut`);
  - both are proved against the specification function `Tabulated`;
  - lemmas state the column widths and the alignment of the lines.

## Reading the source this way

Five behaviours of the code are modelled exactly as written:

- **No auto-registration.** The comment in `connect` speaks of
  auto-registration, but `is_client_authorized` is false for an id the
  catalog lacks. So an unknown id is always refused with close code 1008,
  and `register_client` inside `connect` only ever sees known ids
  (`WebSockets.ConnectUnauthorized`, `Registry.RegisterKnownClient`).
- **Registration comes before the role check.** `connect` registers the
  client before it checks `client_type`. A socket refused for an invalid
  role therefore still counts as a connection and leaves the client online
  in the registry (`WebSockets.ConnectInvalidRole`).
- **Drone socket first.** `send_personal_message` and `disconnect` look up
  the drone map first. For an id connected in both roles:
  - messages go to the drone socket;
  - a disconnect removes only the drone socket
    (`WebSockets.DisconnectDualRole`).
- **Keywords that name a parameter raise.** `register_client(self, client_id, client_type, **kwargs)` raises TypeError for a keyword `self`, `client_id` or `client_type`, and `update_client(self, client_id, **updates)` for `self` or `client_id`, before either body runs (`Registry.RegisterKnownClient`, `Registry.ClientRegistry.UpdateClient`).
- **A failed welcome still returns the id.** If the welcome message cannot
  be sent, the client is disconnected at once, but `connect` still returns
  its id (`WebSockets.ConnectWelcomeFails`).

## Model

| member | source | states |
|---|---|---|
| Json.SerializeDatetime | websocket_manager.py:12-29 | the result has no datetime, ObjectId, Timestamp or BSON leaf anywhere; a dict stays a dict with the same keys in the same order; a list stays a list of the same length |
| Json.SerializePlainUnchanged | websocket_manager.py:12-29 | a value without special leaves comes back unchanged |
| Json.SerializeIdempotent | websocket_manager.py:12-29 | serializing an already serialized value changes nothing |
| Json.SerializeFieldwise | websocket_manager.py:14-15 | every key of a dict survives, mapped to the serialization of its value |
| Json.DecimalText | websocket_manager.py:220 | `str()` of an int is non-empty, starts with a minus sign exactly when the int is negative, and is otherwise all decimal digits |
| Json.DecimalTextInjective | websocket_manager.py:220 | two ints with the same `str()` are equal, so the `alert_id` text names one alert id |
| Registry.ApplyUpdateTouchesOnlySupplied | client_registry.py:177-179 | only attributes named by the keyword arguments can change; applying the same arguments twice is applying them once; names that are not attributes are ignored |
| Registry.RegisterKnownClient | client_registry.py:92-108 | for a known id the call raises TypeError exactly when a keyword is `client_id`, `client_type` or `self`; otherwise the client keeps its id and type, gets one more connection, goes online, gets last-connected set to now and keeps its first-connected time, except that a `status`, `total_connections`, `last_connected` or `first_connected` keyword overrides the value it names, and unknown keyword names have no effect |
| Registry.RegisterNewClient | client_registry.py:109-133 | creation succeeds exactly when no keyword repeats an explicit argument and none is an unknown name; a new record has one connection, is online, has first and last connection both set to now, is authorized unless told otherwise, and gets the default name and role capabilities when none are given |
| Registry.DefaultNamesOfRoles | client_registry.py:121-123 | the default names of the two roles are "Drone <id>" and "Application <id>" |
| Registry.TitleAfter | client_registry.py:123 | title-casing keeps the length, leaves non-letters in place and maps letters to letters |
| Registry.TitleAfterCase | client_registry.py:123 | a letter is upper-cased when it follows an uncased character (or starts a string not continuing a word) and lower-cased when it follows a letter |
| Registry.TitleCase | client_registry.py:123 | in `str.title` of a whole string a letter is upper case exactly when it is first or follows an uncased character, and lower case otherwise |
| Registry.WentOfflineEffect | client_registry.py:143-147 | unregistering keeps the catalog's ids, marks a known client offline with last-connected set to now, changes no other attribute and no other client, leaves the catalog alone for an unknown id, and is idempotent |
| Registry.ParsedPrefix | client_registry.py:257-259 | the number of leading records that build a ClientInfo, with the next record (if any) being one that does not |
| Registry.ClientRegistry.constructor | client_registry.py:43-67 | the catalog is what the registry file held (empty when there was no usable file) and nobody is online |
| Registry.ClientRegistry.Register | client_registry.py:92-141 | the result is the registered record, or the TypeError of a keyword naming a parameter or of a bad new record; on success the catalog and online dict hold it under the id and it is saved; on error nothing changes |
| Registry.ClientRegistry.Unregister | client_registry.py:143-153 | the catalog takes the offline record, the id leaves the online dict, and the catalog is saved |
| Registry.ClientRegistry.GetClient | client_registry.py:155-157 | the record is present exactly when the id is in the catalog, and it is that record |
| Registry.ClientRegistry.GetClientsByType | client_registry.py:159-161 | the result holds exactly the catalog's records of that type, with their multiplicities, in catalog order |
| Registry.ClientRegistry.GetOnlineClients | client_registry.py:163-165 | a copy with the online dict's keys in order, each mapped to the record it holds |
| Registry.ClientRegistry.GetOnlineClientsByType | client_registry.py:167-169 | exactly the online records of that type, with their multiplicities, in online order |
| Registry.ClientRegistry.UpdateClient | client_registry.py:171-182 | a keyword `client_id` or `self` raises TypeError and changes nothing; otherwise the result is true exactly when the id is known, and then the catalog takes the updated record and is saved; the online dict is untouched |
| Registry.ClientRegistry.AuthorizeClient | client_registry.py:184-189 | a known client's authorization flag is set and saved; nothing else changes, and nothing changes for an unknown id |
| Registry.ClientRegistry.RemoveClient | client_registry.py:191-205 | true exactly when the id was in the catalog; the id leaves both dicts; saved only when something was removed |
| Registry.ClientRegistry.GetStats | client_registry.py:207-225 | totals are the dict sizes; the drone, application and authorized counts are the numbers of catalog entries of that type or flag, and the online drone and application counts those of the online records; drones plus applications never exceed the catalog, nor online ones the online count, which never exceeds the catalog |
| Registry.ClientRegistry.ImportClients | client_registry.py:248-267 | an unreadable file returns 0 and changes nothing; otherwise the records are written in file order up to the first that does not build a ClientInfo; online entries sharing a replaced object keep the old object; the count is returned and the catalog saved only when every record was written |
| Registry.MergeRecords | client_registry.py:254-259 | the import loop writes exactly the leading parsed records, detaches the online entries of their ids, and reports whether it reached the end |
| Registry.MergeRecord | client_registry.py:258 | one record replaces its id's catalog entry; an online entry sharing the old object keeps it |
| Registry.ImportStep | client_registry.py:257-259 | one more parsed record extends the merged catalog by that record, and the online dict by one detachment at most |
| Registry.ImportKeepsValid | client_registry.py:257-259 | merging keeps both dicts well formed and every online id in the catalog |
| Registry.ImportKeepsCatalog | client_registry.py:254-263 | an import never drops a catalog entry, writes each merged record under its id, and leaves every other entry as it was |
| Registry.IsClientAuthorized | client_registry.py:289-292 | true exactly when the id is in the catalog and its record is authorized |
| ManageClients.ShowRow | manage_clients.py:35 | one string per cell, each the cell's `str()` |
| ManageClients.ColumnWidth | manage_clients.py:20-23 | a column is at least as wide as its header and as every cell below it |
| ManageClients.WidthsBound | manage_clients.py:20-23 | each computed width is at least the header's length and every cell length in its column |
| ManageClients.WidthsAttained | manage_clients.py:20-23 | each computed width equals the header's length or the length of some cell in its column |
| ManageClients.PadRight | manage_clients.py:26 | a left-aligned cell is the text followed only by spaces, as long as the wider of the text and the column |
| ManageClients.FormatRowFits | manage_clients.py:26-27 | a row whose cells fit their columns is exactly as long as the separator |
| ManageClients.RowLinesAt | manage_clients.py:34-35 | line `k` of the body is row `k` laid out |
| ManageClients.TableLinesAligned | manage_clients.py:29-37 | every line of a table is as long as the separator line |
| ManageClients.TableLayout | manage_clients.py:29-37 | the table is the header line, then the separator, then row `k` in line `k + 2`, joined by newlines |
| ManageClients.FormatTable | manage_clients.py:14-37 | returns or raises what the specification function `Tabulated` does |
| ManageClients.MeasureColumns | manage_clients.py:19-23 | raises exactly when some row has more cells than there are headers; otherwise returns the widths `Widths` specifies |
| ManageClients.LayOut | manage_clients.py:29-37 | raises exactly when some row has fewer cells than there are columns; otherwise returns the header line, the separator and one line per row |
| ManageClients.ListClientsFilter | manage_clients.py:41-47 | keeps exactly the clients matching the given type and the given status (an empty or missing filter matches all), with their records and in catalog order |
| WebSockets.DisconnectEffect | websocket_manager.py:95-118 | the id loses the socket in the map looked up first, its connection record, its alert mapping and its online entry, and goes offline in the catalog; no other id changes; nothing is sent |
| WebSockets.DisconnectIdempotent | websocket_manager.py:95-118 | disconnecting twice is disconnecting once, for an id not connected in both roles |
| WebSockets.DisconnectDualRole | websocket_manager.py:102-107 | an id connected in both roles loses only its drone socket |
| WebSockets.SocketOf | websocket_manager.py:123-127 | a socket is found exactly when the id is connected in either role |
| WebSockets.SendPersonalEffect | websocket_manager.py:120-138 | an unknown id changes nothing; a live socket gets exactly the serialized message and nothing else changes; a failed send disconnects the client; whatever is sent goes to that id and is serialized |
| WebSockets.DeliveriesOfMembers | websocket_manager.py:147-151 | the first broadcast loop sends only to members, on their own live sockets, and reaches every member whose socket is live |
| WebSockets.FailedOfMembers | websocket_manager.py:147-154 | the ids collected for disconnection are exactly the members whose socket is dead, each listed once |
| WebSockets.DeliveriesAreSends | websocket_manager.py:147-151 | the first broadcast loop sends one message to each key with a live socket, in key order |
| WebSockets.BroadcastSends | websocket_manager.py:140-178 | a broadcast appends exactly one send of the serialized message to each member with a live socket, in connection order, and nothing else |
| WebSockets.BroadcastToApplicationsEffect | websocket_manager.py:140-158 | the outbox grows only by the serialized message, sent to each application with a live socket on that socket; exactly the applications whose send failed lose their socket and record; the drones are untouched |
| WebSockets.BroadcastToDronesEffect | websocket_manager.py:160-178 | the same for the drones, with the applications untouched |
| WebSockets.SendToDroneW | websocket_manager.py:180-185 | an id without a drone socket is sent nothing; a drone with a live socket gets exactly the serialized message |
| WebSockets.RelaySkipsSender | websocket_manager.py:273-275 | the relay only appends, and never sends to the sender |
| WebSockets.RelayReachesOtherDrones | websocket_manager.py:273-275 | with live drone sockets, the relay appends exactly one message per drone but the sender, in order, and changes nothing else |
| WebSockets.RelaySendsContents | websocket_manager.py:273-275 | the relay's messages go exactly to the listed ids other than the sender |
| WebSockets.ConnectUnauthorized | websocket_manager.py:49-57 | an unknown or unauthorized id gets a 1008 close, `None` is returned, and nothing but the outbox changes |
| WebSockets.ConnectAuthorized | websocket_manager.py:45-93 | an authorized id with a valid role is returned; the registry counts one more connection and marks it online; the socket goes into that role's map only; the connection is recorded; the welcome goes out on the socket |
| WebSockets.ConnectWelcomeFails | websocket_manager.py:82-93 | when the welcome cannot be sent, the client is disconnected again and offline, nothing is sent and no other id's socket changes, but its id is still returned; a drone leaves the application map as it was, an application the drone map |
| WebSockets.ConnectInvalidRole | websocket_manager.py:59-70 | another role is refused with a 1008 close and `None`, after the registry has already counted the connection and marked the client online |
| WebSockets.ClassifyAlertCases | websocket_manager.py:190-209 | the three outcomes of the classification (validated or responded with response 1, pending with response 0), the missing-key cases that raise, and every other field kept |
| WebSockets.AlertEffect | websocket_manager.py:187-230 | a classified alert is stored once under a fresh id and the drone is mapped to it; only applications are sent the announcement; an unclassifiable payload changes nothing |
| WebSockets.AlertMappingSurvives | websocket_manager.py:214-224 | the broadcast after storing does not undo the drone's alert mapping |
| WebSockets.FindByName | websocket_manager.py:239-246 | the index of the first stored image with that name, or none when no image has it |
| WebSockets.StoreDroneImageEffect | websocket_manager.py:236-260 | a non-empty name already stored merges the fields into the first such document and adds none; otherwise a new document is added under a fresh id |
| WebSockets.ImageReachesApplications | websocket_manager.py:262-270 | with live application sockets, every application gets the image announcement and nobody is disconnected |
| WebSockets.ImageFromDroneReachesAll | websocket_manager.py:233-281 | with live sockets, the image goes to every application and to every drone but the sender, and to nobody else |
| WebSockets.ImageFromApplicationEffect | websocket_manager.py:283-301 | an application's image is always inserted, even under a stored name, and only drones are sent anything |
| WebSockets.DispatchPing | websocket_manager.py:333-339 | a ping from a connected client with a live socket is answered with exactly one pong |
| WebSockets.DispatchStores | websocket_manager.py:304-346 | a dispatched message loses no stored alert or image and adds at most one of each; only an alert from a connected drone adds an alert, and only an alert image from a connected client touches the images |
| WebSockets.DisconnectTracks | websocket_manager.py:109-115 | a disconnect keeps every alert mapping on an id with a connection record |
| WebSockets.BroadcastTracks | websocket_manager.py:156-158 | so does every broadcast |
| WebSockets.DispatchKeepsAlertsTracked | websocket_manager.py:304-346 | every dispatched message keeps every alert mapping on an id with a connection record |
| WebSockets.DisconnectKeepsValid | websocket_manager.py:95-118 | disconnect keeps the manager's invariant: well-formed dicts, online ids in the catalog, each record naming its id and a role whose map holds it, and document ids below the counter |
| WebSockets.SendKeepsValid | websocket_manager.py:120-138 | a personal message keeps the invariant |
| WebSockets.BroadcastKeepsValid | websocket_manager.py:140-178 | a broadcast keeps the invariant |
| WebSockets.RelayKeepsValid | websocket_manager.py:273-275 | the relay keeps the invariant |
| WebSockets.ConnectKeepsValid | websocket_manager.py:45-93 | a connection attempt keeps the invariant |
| WebSockets.AlertKeepsValid | websocket_manager.py:187-230 | the alert handler keeps the invariant |
| WebSockets.ImageFromDroneKeepsValid | websocket_manager.py:233-281 | the drone image handler keeps the invariant |
| WebSockets.ImageFromApplicationKeepsValid | websocket_manager.py:283-301 | the application image handler keeps the invariant |
| WebSockets.DispatchKeepsValid | websocket_manager.py:304-346 | every dispatched message keeps the invariant |
| WebSockets.ConnectionsBounded | websocket_manager.py:348-355 | there are never more connection records than drone and application sockets together |
| WebSockets.SendAll | websocket_manager.py:145-154 | the first broadcast loop produces the sends of the live entries, in order, and the ids of the failed ones |
| WebSockets.WebSocketManager.constructor | websocket_manager.py:34-43 | all maps, collections and the outbox start empty |
| WebSockets.WebSocketManager.Connect | websocket_manager.py:45-93 | the new state and the returned id are those of `ConnectW`; the invariant holds |
| WebSockets.WebSocketManager.Admit | websocket_manager.py:59-93 | for an authorized id: register, then store and welcome, or close for a bad role, as `AdmitW` does |
| WebSockets.WebSocketManager.Store | websocket_manager.py:63-77 | the socket goes into its role's map and the connection is recorded |
| WebSockets.WebSocketManager.Disconnect | websocket_manager.py:95-118 | the new state is `DisconnectW` of the old one |
| WebSockets.WebSocketManager.SendPersonalMessage | websocket_manager.py:120-138 | the new state is `SendPersonalW` of the old one |
| WebSockets.WebSocketManager.BroadcastToApplications | websocket_manager.py:140-158 | the new state is the broadcast to applications of the old one |
| WebSockets.WebSocketManager.BroadcastToDrones | websocket_manager.py:160-178 | the new state is the broadcast to drones of the old one |
| WebSockets.WebSocketManager.Broadcast | websocket_manager.py:140-158 | the shared body of both broadcasts, against `BroadcastW` |
| WebSockets.WebSocketManager.DisconnectEach | websocket_manager.py:156-158 | the clean-up loop disconnects the collected ids in order |
| WebSockets.WebSocketManager.SendToDrone | websocket_manager.py:180-185 | the new state is `SendToDroneW` of the old one |
| WebSockets.WebSocketManager.HandleAlertFromDrone | websocket_manager.py:187-230 | the new state is `AlertW` of the old one |
| WebSockets.WebSocketManager.HandleAlertImageFromDrone | websocket_manager.py:233-281 | the new state is `ImageFromDroneW` of the old one |
| WebSockets.WebSocketManager.StoreImage | websocket_manager.py:236-260 | the merge-or-insert step, as `StoreDroneImage` |
| WebSockets.WebSocketManager.Relay | websocket_manager.py:272-275 | the relay loop over the snapshot of drone ids, as `RelayW` |
| WebSockets.WebSocketManager.HandleAlertImageFromApplication | websocket_manager.py:283-301 | the new state is `ImageFromApplicationW` of the old one |
| WebSockets.WebSocketManager.HandleWebsocketMessage | websocket_manager.py:304-346 | the new state is `DispatchW` of the old one |
| WebSockets.WebSocketManager.GetConnectionStats | websocket_manager.py:348-355 | the four counts are the sizes of the four dicts, and total connections never exceed drone plus application connections |

## Left out

- `load_registry`, `save_registry` and `export_clients` read and write JSON files; file I/O is not modelled. The constructor takes what the file held as a parameter. Every save is a ghost `persisted` snapshot that always succeeds; the backup file and save errors are not modelled.
- `import_clients` takes the file's `"clients"` object, already parsed, as a parameter. `None` stands for a file that cannot be read. A record that does not build a ClientInfo is `None` in that object. A file missing the `"clients"` key looks the same as an empty object.
- WebSocket `accept`, `send_text` and `close` are transport calls that are not modelled. A send fails exactly when its socket is in the constant set `dead`, and a close is recorded in the outbox. `json.dumps` is not modelled; the outbox holds the serialized value.
- The handlers are `async`. Interleaving between them is not modelled, so each handler runs to completion. In particular, the find-then-insert race of the drone image handler is not modelled.
- `uuid.uuid4()` and the clock are replaced by the parameters `freshId` and `now`. Logging is left out.
- The database is modelled only as two sequences of documents, with ids drawn from a counter. The model leaves out:
  - the ObjectId values that `insert_alert` and `create_alert_image` return;
  - the `_id` that an insert adds to the inserted dict;
  - MongoDB's matching of array values and dotted keys in `find` and `$set`.

  `database.py` is not part of this model.
- `models.py` is not part of this model. `ConnectionInfo` is modelled by its three fields. The `connected_at` datetime is the `now` string.
- `handle_alert_from_drone` adds `response` and `status` to the caller's dict in place. The model builds a new record instead, because no caller reads the dict afterwards.
- Floats are carried but never computed with, and `str()` of a float is not modelled. `Registry.Title` upper-cases and lower-cases ASCII letters only; other characters count as uncased.
- Keyword arguments are a fixed record of the ClientInfo attributes plus a set of unknown names. Setting an attribute outside the dataclass fields (for example a dunder name) is not modelled.
- Lengths in `format_table` are counted in characters, as Python counts them. The tool's other commands and its printing are not modelled; neither is the `print` in `list_clients` when nothing matches.
- The exception handler of `disconnect` is not modelled, because no modelled step of `disconnect` can raise.
- WebSockets.BroadcastToApplicationsEffect: requires that no id holds both a drone and an application socket (`Disjoint`). For such an id the code behaves differently: a failed application send calls `disconnect`, which removes the drone socket and leaves the application socket in place. `BroadcastSends` states what is sent without this requirement.
- WebSockets.AlertEffect: requires `Disjoint` and a sender without an application socket, because a sender that also holds a dead application socket is disconnected through the drone map (the `elif` of `disconnect` takes the drone branch first, websocket_manager.py:102-107), and that disconnect drops its `drone_alerts` entry, so the mapping the contract promises would not survive the broadcast.
- WebSockets.ImageFromDroneReachesAll: requires every socket live. The case with failing sends is covered only by `RelaySkipsSender` and the invariant lemmas.
- WebSockets.ConnectWelcomeFails: for an application, requires that the id holds no drone socket. Otherwise the welcome goes to the drone socket, and whether it fails depends on that socket.
- WebSockets.DisconnectIdempotent: requires that the id is not connected in both roles. In that case a second disconnect removes the application socket as well (`DisconnectDualRole`).
- WebSockets.ConnectAuthorized: requires a live socket and, for an application, that the id holds no drone socket. With a dead socket the outcome is `ConnectWelcomeFails`. If the id already holds a drone socket, the welcome would go to that drone socket.
- WebSockets.WebSocketManager.Connect: the contracts of the manager's methods refer to the old state. Each method is tied to its step function, and the properties are stated about those step functions.
