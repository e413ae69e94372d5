/**
  The connection manager of the hub: which drone and application sockets
  are connected, what is known about each connection, which alert each
  drone raised last, and how messages are routed between them. Sends go to
  an outbox; a send on a socket of the set `dead` fails. The alert and
  alert-image collections are sequences of documents with fresh ids drawn
  from a counter.
 */
module WebSockets {
  import opened Wrappers
  import opened Dicts
  import opened Json
  import opened Registry

  /** A connected socket, by handle. */
  type Socket = nat

  /** `ConnectionInfo(client_id, client_type, connected_at)` */
  datatype ConnectionInfo = ConnectionInfo(clientId: string, clientType: string, connectedAt: string)

  /** What the hub did on a socket: sent a (serialized) message, or closed it. */
  datatype Event =
    | Sent(recipient: string, socket: Socket, message: Value)
    | Closed(recipient: string, socket: Socket, code: int, reason: string)

  /** A stored alert or alert image. */
  datatype Doc = Doc(id: nat, fields: Fields)

  datatype Role = Drones | Applications

  /** The close code for policy violations. */
  const PolicyViolation: int := 1008

  /** Everything a step of the manager reads or changes, including the registry it updates. */
  datatype World = World(
    drones: Dict<string, Socket>,
    apps: Dict<string, Socket>,
    info: Dict<string, ConnectionInfo>,
    droneAlerts: Dict<string, nat>,
    clients: Dict<string, ClientInfo>,
    online: Dict<string, OnlineEntry>,
    persisted: Option<Dict<string, ClientInfo>>,
    alerts: seq<Doc>,
    alertImages: seq<Doc>,
    nextId: nat,
    outbox: seq<Event>)

  /**
    The invariant the manager keeps: every map is a dict, every online id is
    in the catalog, every connection record names its own id and a role whose
    map holds that id, and every stored document has an id below the counter.
   */
  ghost predicate WorldValid(w: World) {
    && w.drones.Valid() && w.apps.Valid() && w.info.Valid() && w.droneAlerts.Valid()
    && w.clients.Valid() && w.online.Valid()
    && (forall id :: id in w.online.items ==> id in w.clients.items)
    && (forall id :: id in w.info.items ==> Recorded(w, id))
    && (forall i :: 0 <= i < |w.alerts| ==> w.alerts[i].id < w.nextId)
    && (forall i :: 0 <= i < |w.alertImages| ==> w.alertImages[i].id < w.nextId)
  }

  /** The connection record of `id` names `id` and a role whose map holds `id`. */
  ghost predicate Recorded(w: World, id: string)
    requires id in w.info.items
  {
    var c := w.info.items[id];
    && c.clientId == id
    && (c.clientType == "drone" || c.clientType == "application")
    && (c.clientType == "drone" ==> id in w.drones.items)
    && (c.clientType == "application" ==> id in w.apps.items)
  }

  function Members(w: World, role: Role): Dict<string, Socket> {
    match role
    case Drones => w.drones
    case Applications => w.apps
  }

  /** The two collections and the id counter. */
  function Stores(w: World): (seq<Doc>, seq<Doc>, nat) {
    (w.alerts, w.alertImages, w.nextId)
  }

  /** Both role maps are dicts. */
  ghost predicate RolesValid(w: World) {
    w.drones.Valid() && w.apps.Valid()
  }

  /** No id is connected both as a drone and as an application. */
  ghost predicate Disjoint(w: World) {
    forall id :: !(id in w.drones.items && id in w.apps.items)
  }

  // ------------------------------------------------------------------
  // disconnect
  // ------------------------------------------------------------------

  /** `disconnect(client_id)` */
  function DisconnectW(w: World, id: string, now: string): (r: World)
    ensures r.outbox == w.outbox
    ensures Stores(r) == Stores(w)
  {
    var clients := WentOffline(w.clients, id, now);
    w.(
      clients := clients,
      online := w.online.Remove(id),
      persisted := Some(clients),
      drones := if id in w.drones.items then w.drones.Remove(id) else w.drones,
      apps := if id in w.drones.items then w.apps else w.apps.Remove(id),
      info := w.info.Remove(id),
      droneAlerts := w.droneAlerts.Remove(id))
  }

  /** Afterwards `id` has no socket of the role looked up first, no connection record, no alert mapping, and is offline; no other id's entries change. */
  lemma DisconnectEffect(w: World, id: string, now: string)
    ensures var r := DisconnectW(w, id, now);
      && id !in r.drones.items && id !in r.info.items && id !in r.droneAlerts.items && id !in r.online.items
      && (id !in w.drones.items ==> id !in r.apps.items)
      && (id in w.clients.items ==> id in r.clients.items && r.clients.items[id].status == "offline")
      && (forall k :: k != id ==>
            && r.drones.Get(k) == w.drones.Get(k) && r.apps.Get(k) == w.apps.Get(k)
            && r.info.Get(k) == w.info.Get(k) && r.droneAlerts.Get(k) == w.droneAlerts.Get(k)
            && r.clients.Get(k) == w.clients.Get(k) && r.online.Get(k) == w.online.Get(k))
      && r.outbox == w.outbox && r.alerts == w.alerts && r.alertImages == w.alertImages && r.nextId == w.nextId
  {
    WentOfflineEffect(w.clients, id, now);
  }

  /** Disconnecting twice is disconnecting once, unless the id was connected in both roles. */
  lemma DisconnectIdempotent(w: World, id: string, now: string)
    requires !(id in w.drones.items && id in w.apps.items)
    ensures DisconnectW(DisconnectW(w, id, now), id, now) == DisconnectW(w, id, now)
  {
    WentOfflineEffect(w.clients, id, now);
  }

  /** An id connected in both roles loses only its drone socket: the application socket stays. */
  lemma DisconnectDualRole(w: World, id: string, now: string)
    requires id in w.drones.items && id in w.apps.items
    ensures id !in DisconnectW(w, id, now).drones.items
    ensures DisconnectW(w, id, now).apps == w.apps
  {
  }

  /** `disconnect` for each id of `ids` in turn. */
  function DisconnectAllW(w: World, ids: seq<string>, now: string): (r: World)
    ensures r.outbox == w.outbox
    ensures Stores(r) == Stores(w)
  {
    if |ids| == 0 then w else DisconnectW(DisconnectAllW(w, ids[..|ids| - 1], now), ids[|ids| - 1], now)
  }

  // ------------------------------------------------------------------
  // sending
  // ------------------------------------------------------------------

  /** The socket `send_personal_message` picks: the drone socket first, then the application socket. */
  function SocketOf(w: World, id: string): (r: Option<Socket>)
    ensures r.Some? <==> id in w.drones.items || id in w.apps.items
  {
    if id in w.drones.items then Some(w.drones.items[id])
    else if id in w.apps.items then Some(w.apps.items[id])
    else None
  }

  /** `send_personal_message(client_id, message)`: a failed send disconnects the client. */
  function SendPersonalW(w: World, dead: set<Socket>, id: string, msg: Value, now: string): (r: World)
    ensures IsPrefix(w.outbox, r.outbox)
    ensures Stores(r) == Stores(w)
  {
    match SocketOf(w, id)
    case None => w
    case Some(s) =>
      if s in dead then DisconnectW(w, id, now)
      else w.(outbox := w.outbox + [Sent(id, s, SerializeDatetime(msg))])
  }

  /** A client with a live socket gets exactly the serialized message and nothing else changes; an unknown client gets nothing. */
  lemma SendPersonalEffect(w: World, dead: set<Socket>, id: string, msg: Value, now: string)
    ensures SocketOf(w, id).None? ==> SendPersonalW(w, dead, id, msg, now) == w
    ensures SocketOf(w, id).Some? && SocketOf(w, id).value !in dead ==>
      SendPersonalW(w, dead, id, msg, now) == w.(outbox := w.outbox + [Sent(id, SocketOf(w, id).value, SerializeDatetime(msg))])
    ensures SocketOf(w, id).Some? && SocketOf(w, id).value in dead ==>
      SendPersonalW(w, dead, id, msg, now) == DisconnectW(w, id, now)
    ensures forall e :: e in SendPersonalW(w, dead, id, msg, now).outbox[|w.outbox|..] ==> e.Sent? && e.recipient == id && Plain(e.message)
  {
    var r := SendPersonalW(w, dead, id, msg, now);
    match SocketOf(w, id)
    case None =>
    case Some(s) =>
      if s !in dead {
        assert r.outbox[|w.outbox|..] == [Sent(id, s, SerializeDatetime(msg))];
      }
  }

  /** The sends of a broadcast's first loop: one per entry whose socket is live, in order. */
  function Deliveries(entries: seq<(string, Socket)>, dead: set<Socket>, m: Value): (r: seq<Event>)
    ensures |r| <= |entries|
    ensures forall e :: e in r ==> e.Sent? && (e.recipient, e.socket) in entries && e.socket !in dead && e.message == m
  {
    if |entries| == 0 then []
    else
      var last := entries[|entries| - 1];
      Deliveries(entries[..|entries| - 1], dead, m) + (if last.1 in dead then [] else [Sent(last.0, last.1, m)])
  }

  /** `disconnected_clients`: the ids whose send failed, in order. */
  function FailedIds(entries: seq<(string, Socket)>, dead: set<Socket>): (r: seq<string>)
    ensures forall id :: id in r <==> exists s :: (id, s) in entries && s in dead
  {
    if |entries| == 0 then []
    else
      var last := entries[|entries| - 1];
      var rest := FailedIds(entries[..|entries| - 1], dead);
      assert forall p :: p in entries <==> p in entries[..|entries| - 1] || p == last;
      rest + (if last.1 in dead then [last.0] else [])
  }

  /** Every entry with a live socket gets its message. */
  lemma {:induction false} DeliveriesComplete(entries: seq<(string, Socket)>, dead: set<Socket>, m: Value, i: nat)
    requires i < |entries| && entries[i].1 !in dead
    ensures Sent(entries[i].0, entries[i].1, m) in Deliveries(entries, dead, m)
  {
    var n := |entries| - 1;
    if i < n {
      DeliveriesComplete(entries[..n], dead, m, i);
    }
  }

  /** The sends of a broadcast go to members on their own live sockets, and reach every member whose socket is live. */
  lemma DeliveriesOfMembers(members: Dict<string, Socket>, dead: set<Socket>, m: Value)
    requires members.Valid()
    ensures var d := Deliveries(members.Entries(), dead, m);
      && (forall e :: e in d ==> e.Sent? && e.recipient in members.items && e.socket == members.items[e.recipient] && e.socket !in dead && e.message == m)
      && (forall id :: id in members.items && members.items[id] !in dead ==> Sent(id, members.items[id], m) in d)
  {
    var entries := members.Entries();
    forall id, s | (id, s) in entries ensures id in members.items && s == members.items[id] {
      var i :| 0 <= i < |entries| && entries[i] == (id, s);
    }
    forall id | id in members.items && members.items[id] !in dead ensures Sent(id, members.items[id], m) in Deliveries(entries, dead, m) {
      var i :| 0 <= i < |members.keys| && members.keys[i] == id;
      DeliveriesComplete(entries, dead, m, i);
    }
  }

  /** The members a broadcast disconnects are exactly those whose socket is dead. */
  lemma FailedOfMembers(members: Dict<string, Socket>, dead: set<Socket>)
    requires members.Valid()
    ensures forall id :: id in FailedIds(members.Entries(), dead) <==> id in members.items && members.items[id] in dead
    ensures Distinct(FailedIds(members.Entries(), dead))
  {
    var entries := members.Entries();
    FailedIdsDistinct(entries, dead);
    forall id | id in members.items && members.items[id] in dead ensures id in FailedIds(entries, dead) {
      var i :| 0 <= i < |members.keys| && members.keys[i] == id;
      assert entries[i] == (id, members.items[id]);
    }
    forall id | id in FailedIds(entries, dead) ensures id in members.items && members.items[id] in dead {
      var s :| (id, s) in entries && s in dead;
      var i :| 0 <= i < |entries| && entries[i] == (id, s);
    }
  }

  /** `broadcast_to_applications` / `broadcast_to_drones` */
  function BroadcastW(w: World, dead: set<Socket>, role: Role, msg: Value, now: string): (r: World)
    requires Members(w, role).Valid()
    ensures IsPrefix(w.outbox, r.outbox)
    ensures Stores(r) == Stores(w)
  {
    var members := Members(w, role);
    if members.Len() == 0 then w
    else
      var entries := members.Entries();
      var sent := w.(outbox := w.outbox + Deliveries(entries, dead, SerializeDatetime(msg)));
      DisconnectAllW(sent, FailedIds(entries, dead), now)
  }

  /** Disconnecting ids that all hold application sockets only removes those sockets, records and mappings. */
  lemma {:induction false} DisconnectAllApplications(w: World, ids: seq<string>, now: string)
    requires forall id :: id in ids ==> id !in w.drones.items
    ensures var r := DisconnectAllW(w, ids, now);
      && r.drones == w.drones && r.outbox == w.outbox
      && (forall id :: id in r.apps.items <==> id in w.apps.items && id !in ids)
      && (forall id :: id in r.apps.items ==> r.apps.items[id] == w.apps.items[id])
      && (forall id :: id in r.info.items <==> id in w.info.items && id !in ids)
      && (forall id :: id in r.droneAlerts.items <==> id in w.droneAlerts.items && id !in ids)
  {
    if |ids| != 0 {
      var prefix := ids[..|ids| - 1];
      assert forall id :: id in prefix ==> id in ids;
      DisconnectAllApplications(w, prefix, now);
      assert forall id :: id in ids <==> id in prefix || id == ids[|ids| - 1];
    }
  }

  /** Disconnecting distinct ids that all hold drone sockets only removes those sockets, records and mappings. */
  lemma {:induction false} DisconnectAllDrones(w: World, ids: seq<string>, now: string)
    requires Distinct(ids)
    requires forall id :: id in ids ==> id in w.drones.items
    ensures var r := DisconnectAllW(w, ids, now);
      && r.apps == w.apps && r.outbox == w.outbox
      && (forall id :: id in r.drones.items <==> id in w.drones.items && id !in ids)
      && (forall id :: id in r.drones.items ==> r.drones.items[id] == w.drones.items[id])
      && (forall id :: id in r.info.items <==> id in w.info.items && id !in ids)
      && (forall id :: id in r.droneAlerts.items <==> id in w.droneAlerts.items && id !in ids)
  {
    if |ids| != 0 {
      var n := |ids| - 1;
      var prefix := ids[..n];
      assert forall id :: id in prefix ==> id in ids;
      DisconnectAllDrones(w, prefix, now);
      assert ids[n] !in prefix;
      assert forall id :: id in ids <==> id in prefix || id == ids[n];
    }
  }

  /** Within one dict's entries an id fails at most once. */
  lemma {:induction false} FailedIdsDistinct(entries: seq<(string, Socket)>, dead: set<Socket>)
    requires forall i, j :: 0 <= i < j < |entries| ==> entries[i].0 != entries[j].0
    ensures Distinct(FailedIds(entries, dead))
  {
    if |entries| != 0 {
      var n := |entries| - 1;
      FailedIdsDistinct(entries[..n], dead);
      var rest := FailedIds(entries[..n], dead);
      if entries[n].1 in dead {
        assert entries[n].0 !in rest;
        assert FailedIds(entries, dead) == rest + [entries[n].0];
      }
    }
  }

  /** `lambda socket: socket is live`, as a filter. */
  function Live(dead: set<Socket>): Socket -> bool {
    s => s !in dead
  }

  /** One send of `m` to each id of `ids`, in order, on its socket in `sockets`. */
  function SendsTo(ids: seq<string>, sockets: map<string, Socket>, m: Value): (r: seq<Event>)
    requires forall id :: id in ids ==> id in sockets
    ensures |r| == |ids|
    ensures forall i :: 0 <= i < |ids| ==> r[i] == Sent(ids[i], sockets[ids[i]], m)
  {
    seq(|ids|, i requires 0 <= i < |ids| => Sent(ids[i], sockets[ids[i]], m))
  }

  lemma SendsToAppend(a: seq<string>, b: seq<string>, sockets: map<string, Socket>, m: Value)
    requires forall id :: id in a + b ==> id in sockets
    ensures SendsTo(a + b, sockets, m) == SendsTo(a, sockets, m) + SendsTo(b, sockets, m)
  {
    assert forall id :: id in a ==> id in a + b;
    assert forall id :: id in b ==> id in a + b;
  }

  /** The sends to the live keys of a longer key list: those of its start, then one to the new key if it is live. */
  lemma LiveSendsSnoc(ks: seq<string>, sockets: map<string, Socket>, dead: set<Socket>, m: Value)
    requires |ks| != 0 && forall k :: k in ks ==> k in sockets
    ensures var n := |ks| - 1;
      SendsTo(KeepWhere(ks, sockets, Live(dead)), sockets, m)
        == SendsTo(KeepWhere(ks[..n], sockets, Live(dead)), sockets, m)
           + (if sockets[ks[n]] in dead then [] else [Sent(ks[n], sockets[ks[n]], m)])
  {
    var n := |ks| - 1;
    var k := ks[n];
    assert forall x :: x in ks[..n] ==> x in ks;
    assert ks == ks[..n] + [k];
    KeepWhereSnoc(ks[..n], k, sockets, Live(dead));
    var front := KeepWhere(ks[..n], sockets, Live(dead));
    var tail := if sockets[k] in dead then [] else [k];
    assert KeepWhere(ks, sockets, Live(dead)) == front + tail;
    SendsToAppend(front, tail, sockets, m);
    assert SendsTo(tail, sockets, m) == if sockets[k] in dead then [] else [Sent(k, sockets[k], m)];
  }

  /** The first loop of a broadcast sends to the live keys, in key order. */
  lemma {:induction false} DeliveriesAreSends(ks: seq<string>, entries: seq<(string, Socket)>, sockets: map<string, Socket>, dead: set<Socket>, m: Value)
    requires forall k :: k in ks ==> k in sockets
    requires |entries| == |ks| && forall i :: 0 <= i < |ks| ==> entries[i] == (ks[i], sockets[ks[i]])
    ensures Deliveries(entries, dead, m) == SendsTo(KeepWhere(ks, sockets, Live(dead)), sockets, m)
  {
    if |ks| != 0 {
      var n := |ks| - 1;
      assert forall x :: x in ks[..n] ==> x in ks;
      DeliveriesAreSends(ks[..n], entries[..n], sockets, dead, m);
      LiveSendsSnoc(ks, sockets, dead, m);
    }
  }

  /**
    A broadcast sends the serialized message exactly once to each member
    whose socket is live, in the order the members connected, and nothing
    else.
   */
  lemma BroadcastSends(w: World, dead: set<Socket>, role: Role, msg: Value, now: string)
    requires Members(w, role).Valid()
    ensures var members := Members(w, role);
      var live := KeepWhere(members.keys, members.items, Live(dead));
      && BroadcastW(w, dead, role, msg, now).outbox == w.outbox + SendsTo(live, members.items, SerializeDatetime(msg))
      && Distinct(live) && SubSeq(live, members.keys)
      && (forall id :: id in live <==> id in members.items && members.items[id] !in dead)
  {
    var members := Members(w, role);
    DeliveriesAreSends(members.keys, members.Entries(), members.items, dead, SerializeDatetime(msg));
  }

  /**
    A broadcast to the applications sends the serialized message to every
    application whose socket is live, on that socket, and afterwards exactly
    the applications whose send failed are disconnected; the drones are
    untouched. `BroadcastSends` adds that each gets it once, in order.
   */
  lemma BroadcastToApplicationsEffect(w: World, dead: set<Socket>, msg: Value, now: string)
    requires w.apps.Valid() && Disjoint(w)
    ensures var r := BroadcastW(w, dead, Applications, msg, now);
      && r.drones == w.drones
      && |w.outbox| <= |r.outbox| && r.outbox[..|w.outbox|] == w.outbox
      && (forall e :: e in r.outbox[|w.outbox|..] ==>
            e.Sent? && e.recipient in w.apps.items && e.socket == w.apps.items[e.recipient]
            && e.socket !in dead && e.message == SerializeDatetime(msg))
      && (forall id :: id in w.apps.items && w.apps.items[id] !in dead ==> Sent(id, w.apps.items[id], SerializeDatetime(msg)) in r.outbox[|w.outbox|..])
      && (forall id :: id in r.apps.items <==> id in w.apps.items && w.apps.items[id] !in dead)
      && (forall id :: id in r.apps.items ==> r.apps.items[id] == w.apps.items[id])
      && (forall id :: id in r.info.items <==> id in w.info.items && !(id in w.apps.items && w.apps.items[id] in dead))
  {
    if w.apps.Len() != 0 {
      var entries := w.apps.Entries();
      var m := SerializeDatetime(msg);
      var sent := w.(outbox := w.outbox + Deliveries(entries, dead, m));
      var failed := FailedIds(entries, dead);
      DeliveriesOfMembers(w.apps, dead, m);
      FailedOfMembers(w.apps, dead);
      DisconnectAllApplications(sent, failed, now);
      assert DisconnectAllW(sent, failed, now).outbox[|w.outbox|..] == Deliveries(entries, dead, m);
    } else {
      LenIsSize(w.apps);
    }
  }

  /**
    A broadcast to the drones sends the serialized message to every drone
    whose socket is live, on that socket, and afterwards exactly the drones
    whose send failed are disconnected; the applications are untouched, even
    for an id that also holds an application socket.
   */
  lemma BroadcastToDronesEffect(w: World, dead: set<Socket>, msg: Value, now: string)
    requires w.drones.Valid()
    ensures var r := BroadcastW(w, dead, Drones, msg, now);
      && r.apps == w.apps
      && |w.outbox| <= |r.outbox| && r.outbox[..|w.outbox|] == w.outbox
      && (forall e :: e in r.outbox[|w.outbox|..] ==>
            e.Sent? && e.recipient in w.drones.items && e.socket == w.drones.items[e.recipient]
            && e.socket !in dead && e.message == SerializeDatetime(msg))
      && (forall id :: id in w.drones.items && w.drones.items[id] !in dead ==> Sent(id, w.drones.items[id], SerializeDatetime(msg)) in r.outbox[|w.outbox|..])
      && (forall id :: id in r.drones.items <==> id in w.drones.items && w.drones.items[id] !in dead)
      && (forall id :: id in r.drones.items ==> r.drones.items[id] == w.drones.items[id])
      && (forall id :: id in r.info.items <==> id in w.info.items && !(id in w.drones.items && w.drones.items[id] in dead))
  {
    if w.drones.Len() != 0 {
      var entries := w.drones.Entries();
      var m := SerializeDatetime(msg);
      var sent := w.(outbox := w.outbox + Deliveries(entries, dead, m));
      var failed := FailedIds(entries, dead);
      DeliveriesOfMembers(w.drones, dead, m);
      FailedOfMembers(w.drones, dead);
      DisconnectAllDrones(sent, failed, now);
      assert DisconnectAllW(sent, failed, now).outbox[|w.outbox|..] == Deliveries(entries, dead, m);
    } else {
      LenIsSize(w.drones);
    }
  }

  /** `send_to_drone(drone_id, message)`: only a connected drone gets the message. */
  function SendToDroneW(w: World, dead: set<Socket>, droneId: string, msg: Value, now: string): (r: World)
    ensures droneId !in w.drones.items ==> r == w
    ensures droneId in w.drones.items && w.drones.items[droneId] !in dead ==>
      r == w.(outbox := w.outbox + [Sent(droneId, w.drones.items[droneId], SerializeDatetime(msg))])
  {
    if droneId in w.drones.items then SendPersonalW(w, dead, droneId, msg, now) else w
  }

  /** The relay loop of the drone alert-image handler: a personal message to each id of `ids` but the sender. */
  function RelayW(w: World, dead: set<Socket>, sender: string, ids: seq<string>, msg: Value, now: string): (r: World)
    ensures IsPrefix(w.outbox, r.outbox)
    ensures Stores(r) == Stores(w)
  {
    if |ids| == 0 then w
    else
      var before := RelayW(w, dead, sender, ids[..|ids| - 1], msg, now);
      if ids[|ids| - 1] != sender then SendPersonalW(before, dead, ids[|ids| - 1], msg, now) else before
  }

  /** The relay never sends to the sender, and only adds to the outbox. */
  lemma {:induction false} RelaySkipsSender(w: World, dead: set<Socket>, sender: string, ids: seq<string>, msg: Value, now: string)
    ensures var r := RelayW(w, dead, sender, ids, msg, now);
      && |w.outbox| <= |r.outbox| && r.outbox[..|w.outbox|] == w.outbox
      && forall e :: e in r.outbox[|w.outbox|..] ==> e.Sent? && e.recipient != sender && e.recipient in ids
  {
    if |ids| != 0 {
      var prefix := ids[..|ids| - 1];
      var last := ids[|ids| - 1];
      RelaySkipsSender(w, dead, sender, prefix, msg, now);
      var before := RelayW(w, dead, sender, prefix, msg, now);
      var r := RelayW(w, dead, sender, ids, msg, now);
      if last != sender {
        SendPersonalEffect(before, dead, last, msg, now);
        assert r.outbox[|w.outbox|..] == before.outbox[|w.outbox|..] + r.outbox[|before.outbox|..];
      }
      assert forall id :: id in prefix ==> id in ids;
    }
  }

  /** With every drone socket live, the relay over the drones sends the message once to each drone but the sender, in order. */
  lemma {:induction false} RelayReachesOtherDrones(w: World, dead: set<Socket>, sender: string, ids: seq<string>, msg: Value, now: string)
    requires forall id :: id in ids ==> id in w.drones.items && w.drones.items[id] !in dead
    ensures RelayW(w, dead, sender, ids, msg, now) == w.(outbox := w.outbox + RelaySends(w, sender, ids, SerializeDatetime(msg)))
  {
    if |ids| != 0 {
      var prefix := ids[..|ids| - 1];
      assert forall id :: id in prefix ==> id in ids;
      RelayReachesOtherDrones(w, dead, sender, prefix, msg, now);
      RelayStep(w, dead, sender, ids, msg, now);
    }
  }

  /** One more id for the relay: a live drone other than the sender gets one more message. */
  lemma RelayStep(w: World, dead: set<Socket>, sender: string, ids: seq<string>, msg: Value, now: string)
    requires |ids| != 0
    requires forall id :: id in ids ==> id in w.drones.items && w.drones.items[id] !in dead
    requires var prefix := ids[..|ids| - 1];
      (forall id :: id in prefix ==> id in w.drones.items) &&
      RelayW(w, dead, sender, prefix, msg, now) == w.(outbox := w.outbox + RelaySends(w, sender, prefix, SerializeDatetime(msg)))
    ensures RelayW(w, dead, sender, ids, msg, now) == w.(outbox := w.outbox + RelaySends(w, sender, ids, SerializeDatetime(msg)))
  {
    var prefix := ids[..|ids| - 1];
    var last := ids[|ids| - 1];
    var m := SerializeDatetime(msg);
    assert last in ids;
    var before := w.(outbox := w.outbox + RelaySends(w, sender, prefix, m));
    if last != sender {
      RelaySendLive(before, dead, last, w.drones.items[last], msg, now);
      assert RelaySends(w, sender, ids, m) == RelaySends(w, sender, prefix, m) + [Sent(last, w.drones.items[last], m)];
    } else {
      assert RelaySends(w, sender, ids, m) == RelaySends(w, sender, prefix, m);
    }
  }

  /** A message to a live drone only appends to the outbox. */
  lemma RelaySendLive(u: World, dead: set<Socket>, id: string, s: Socket, msg: Value, now: string)
    requires id in u.drones.items && u.drones.items[id] == s && s !in dead
    ensures SendPersonalW(u, dead, id, msg, now) == u.(outbox := u.outbox + [Sent(id, s, SerializeDatetime(msg))])
  {
    assert SocketOf(u, id) == Some(s);
  }

  /** The messages of a relay over live drones: one to each id of `ids` but the sender, in order. */
  function RelaySends(w: World, sender: string, ids: seq<string>, m: Value): seq<Event>
    requires forall id :: id in ids ==> id in w.drones.items
  {
    if |ids| == 0 then []
    else
      var prefix := ids[..|ids| - 1];
      var last := ids[|ids| - 1];
      assert forall id :: id in prefix ==> id in ids;
      RelaySends(w, sender, prefix, m) + (if last != sender then [Sent(last, w.drones.items[last], m)] else [])
  }

  /** The relay's messages go exactly to the ids of `ids` other than the sender, each over its drone socket. */
  lemma {:induction false} RelaySendsContents(w: World, sender: string, ids: seq<string>, m: Value)
    requires forall id :: id in ids ==> id in w.drones.items
    ensures forall e :: e in RelaySends(w, sender, ids, m) ==> e.Sent? && e.recipient != sender && e.recipient in ids && e.message == m
    ensures forall id :: id in ids && id != sender ==> Sent(id, w.drones.items[id], m) in RelaySends(w, sender, ids, m)
  {
    if |ids| != 0 {
      var prefix := ids[..|ids| - 1];
      var last := ids[|ids| - 1];
      assert forall id :: id in prefix ==> id in ids;
      assert forall id :: id in ids <==> id in prefix || id == last;
      RelaySendsContents(w, sender, prefix, m);
    }
  }

  // ------------------------------------------------------------------
  // connect
  // ------------------------------------------------------------------

  /** `{"client_name": client_info.name}` */
  function NameValue(name: Option<string>): Value {
    match name
    case Some(n) => Str(n)
    case None => Null
  }

  /** The list of capability names as a JSON list. */
  function StringList(xs: seq<string>): (v: Value)
    ensures v.List? && |v.elems| == |xs|
  {
    List(seq(|xs|, i requires 0 <= i < |xs| => Str(xs[i])))
  }

  /** The `connection_established` message. */
  function Welcome(id: string, clientType: string, info: ClientInfo, now: string): Value {
    Message([
      ("type", Str("connection_established")),
      ("client_id", Str(id)),
      ("client_type", Str(clientType)),
      ("client_name", NameValue(info.name)),
      ("capabilities", StringList(info.capabilities)),
      ("total_connections", Int(info.totalConnections)),
      ("timestamp", Str(now))])
  }

  /** The id `connect` uses: the requested one, or a fresh one when none (or an empty one) is given. */
  function ChosenId(requested: Option<string>, freshId: string): string {
    if requested.None? || requested.value == "" then freshId else requested.value
  }

  /** `register_client(client_id, client_type)` on a known id, as `connect` calls it. */
  function Admitted(w: World, id: string, clientType: string, now: string): (r: World)
    requires id in w.clients.items
    ensures r == w.(clients := r.clients, online := r.online, persisted := r.persisted)
    ensures id in r.clients.items && id in r.online.items
  {
    var clients := w.clients.Put(id, Registered(w.clients, id, clientType, NoUpdate, now).value);
    w.(clients := clients, online := w.online.Put(id, Shared), persisted := Some(clients))
  }

  /** The socket stored under the id in its role's map, and the connection recorded. */
  function Stored(w: World, id: string, clientType: string, ws: Socket, now: string): (r: World)
    requires clientType == "drone" || clientType == "application"
    ensures r == w.(drones := r.drones, apps := r.apps, info := r.info)
  {
    var placed := if clientType == "drone" then w.(drones := w.drones.Put(id, ws)) else w.(apps := w.apps.Put(id, ws));
    placed.(info := placed.info.Put(id, ConnectionInfo(id, clientType, now)))
  }

  /** `connect(websocket, client_type, client_id)`: the new world and the id returned (`None` when the socket was closed). */
  function ConnectW(w: World, dead: set<Socket>, ws: Socket, clientType: string, requested: Option<string>, freshId: string, now: string): (r: (World, Option<string>))
    ensures IsPrefix(w.outbox, r.0.outbox)
  {
    var id := ChosenId(requested, freshId);
    if !IsAuthorized(w.clients, id) then
      (w.(outbox := w.outbox + [Closed(id, ws, PolicyViolation, "Client not authorized")]), None)
    else
      AdmitW(w, dead, ws, id, clientType, now)
  }

  /** `connect` once the id is known to be authorized: register, then store and welcome, or close for a bad role. */
  function AdmitW(w: World, dead: set<Socket>, ws: Socket, id: string, clientType: string, now: string): (r: (World, Option<string>))
    requires id in w.clients.items
    ensures IsPrefix(w.outbox, r.0.outbox)
  {
    var admitted := Admitted(w, id, clientType, now);
    if clientType == "drone" || clientType == "application" then
      var welcome := Welcome(id, clientType, admitted.clients.items[id], now);
      (SendPersonalW(Stored(admitted, id, clientType, ws, now), dead, id, welcome, now), Some(id))
    else
      (admitted.(outbox := w.outbox + [Closed(id, ws, PolicyViolation, "Invalid client type")]), None)
  }

  /** An unknown or unauthorized id: the socket is closed, `None` is returned, and no map and no registry entry changes. */
  lemma ConnectUnauthorized(w: World, dead: set<Socket>, ws: Socket, clientType: string, requested: Option<string>, freshId: string, now: string)
    requires !IsAuthorized(w.clients, ChosenId(requested, freshId))
    ensures var (r, id) := ConnectW(w, dead, ws, clientType, requested, freshId, now);
      && id == None
      && r == w.(outbox := r.outbox)
      && r.outbox == w.outbox + [Closed(ChosenId(requested, freshId), ws, PolicyViolation, "Client not authorized")]
  {
  }

  /**
    A known, authorized id with a role: the registry counts one more
    connection and marks it online, the socket goes into exactly that role's
    map, the connection is recorded, and the welcome goes out on the socket.
   */
  lemma ConnectAuthorized(w: World, dead: set<Socket>, ws: Socket, clientType: string, requested: Option<string>, freshId: string, now: string)
    requires IsAuthorized(w.clients, ChosenId(requested, freshId))
    requires clientType == "drone" || clientType == "application"
    requires ws !in dead
    requires clientType == "application" ==> ChosenId(requested, freshId) !in w.drones.items
    ensures var id := ChosenId(requested, freshId);
      var (r, returned) := ConnectW(w, dead, ws, clientType, requested, freshId, now);
      && returned == Some(id)
      && r.clients.items[id].totalConnections == w.clients.items[id].totalConnections + 1
      && r.clients.items[id].status == "online" && r.clients.items[id].lastConnected == now
      && r.clients.items[id].firstConnected == w.clients.items[id].firstConnected
      && id in r.online.items
      && (clientType == "drone" ==> r.drones == w.drones.Put(id, ws) && r.apps == w.apps)
      && (clientType == "application" ==> r.apps == w.apps.Put(id, ws) && r.drones == w.drones)
      && r.info == w.info.Put(id, ConnectionInfo(id, clientType, now))
      && r.outbox == w.outbox + [Sent(id, ws, SerializeDatetime(Welcome(id, clientType, r.clients.items[id], now)))]
  {
  }

  /** The welcome cannot be sent: the client is disconnected again at once, yet its id is still returned. */
  lemma ConnectWelcomeFails(w: World, dead: set<Socket>, ws: Socket, clientType: string, requested: Option<string>, freshId: string, now: string)
    requires IsAuthorized(w.clients, ChosenId(requested, freshId))
    requires clientType == "drone" || clientType == "application"
    requires ws in dead
    requires clientType == "application" ==> ChosenId(requested, freshId) !in w.drones.items
    ensures var id := ChosenId(requested, freshId);
      var (r, returned) := ConnectW(w, dead, ws, clientType, requested, freshId, now);
      && returned == Some(id)
      && id !in r.drones.items && id !in r.info.items && id !in r.online.items
      && r.clients.items[id].status == "offline"
      && r.clients.items[id].totalConnections == w.clients.items[id].totalConnections + 1
      && r.outbox == w.outbox
      && (forall k :: k != id ==> r.drones.Get(k) == w.drones.Get(k) && r.apps.Get(k) == w.apps.Get(k))
      && (clientType == "drone" ==> r.apps == w.apps)
      && (clientType == "application" ==> id !in r.apps.items && r.drones == w.drones)
  {
    var id := ChosenId(requested, freshId);
    var admitted := Admitted(w, id, clientType, now);
    var stored := Stored(admitted, id, clientType, ws, now);
    var welcome := Welcome(id, clientType, admitted.clients.items[id], now);
    assert SocketOf(stored, id) == Some(ws);
    assert ConnectW(w, dead, ws, clientType, requested, freshId, now).0 == DisconnectW(stored, id, now);
    DisconnectEffect(stored, id, now);
  }

  /** Any other role: the registry is already updated, but nothing is stored and the socket is closed. */
  lemma ConnectInvalidRole(w: World, dead: set<Socket>, ws: Socket, clientType: string, requested: Option<string>, freshId: string, now: string)
    requires IsAuthorized(w.clients, ChosenId(requested, freshId))
    requires clientType != "drone" && clientType != "application"
    ensures var id := ChosenId(requested, freshId);
      var (r, returned) := ConnectW(w, dead, ws, clientType, requested, freshId, now);
      && returned == None
      && r.drones == w.drones && r.apps == w.apps && r.info == w.info && r.droneAlerts == w.droneAlerts
      && r.clients.items[id].totalConnections == w.clients.items[id].totalConnections + 1
      && r.clients.items[id].status == "online"
      && id in r.online.items
      && r.outbox == w.outbox + [Closed(id, ws, PolicyViolation, "Invalid client type")]
  {
  }

  // ------------------------------------------------------------------
  // alerts
  // ------------------------------------------------------------------

  /** The stored alert record and the broadcast type it is announced with. */
  datatype Classified = Classified(record: Fields, kind: string)

  /**
    The classification of `handle_alert_from_drone`; `None` when the payload
    is not a dict or lacks a key the classification reads (the handler
    raises, and the exception is caught and logged).
   */
  function ClassifyAlert(data: Value): Option<Classified> {
    if !data.Object? then None
    else
      var fields := data.fields;
      match fields.Get("rl_responsed")
      case None => None
      case Some(rl) =>
        if EqualsOne(rl) then
          match fields.Get("image_received")
          case None => None
          case Some(img) =>
            var status := if EqualsOne(img) then "validated" else "responded";
            Some(Classified(fields.Put("response", Int(1)).Put("status", Str(status)), "alert_responsed"))
        else
          Some(Classified(fields.Put("response", Int(0)).Put("status", Str("pending")), "alert"))
  }

  /** The three outcomes of the classification, and what it leaves of the payload. */
  lemma ClassifyAlertCases(data: Value)
    requires data.Object?
    ensures var f := data.fields;
      && ("rl_responsed" !in f.items ==> ClassifyAlert(data) == None)
      && ("rl_responsed" in f.items && EqualsOne(f.items["rl_responsed"]) ==>
            && ("image_received" !in f.items ==> ClassifyAlert(data) == None)
            && ("image_received" in f.items ==>
                  && ClassifyAlert(data).Some?
                  && ClassifyAlert(data).value.kind == "alert_responsed"
                  && ClassifyAlert(data).value.record.items["response"] == Int(1)
                  && ClassifyAlert(data).value.record.items["status"]
                     == Str(if EqualsOne(f.items["image_received"]) then "validated" else "responded")))
      && ("rl_responsed" in f.items && !EqualsOne(f.items["rl_responsed"]) ==>
            && ClassifyAlert(data).Some?
            && ClassifyAlert(data).value.kind == "alert"
            && ClassifyAlert(data).value.record.items["response"] == Int(0)
            && ClassifyAlert(data).value.record.items["status"] == Str("pending"))
      && (ClassifyAlert(data).Some? ==>
            var rec := ClassifyAlert(data).value.record;
            && (f.Valid() ==> rec.Valid())
            && (forall k :: k in rec.items <==> k in f.items || k == "response" || k == "status")
            && (forall k :: k in f.items && k != "response" && k != "status" ==> rec.items[k] == f.items[k]))
  {
    var f := data.fields;
    if "rl_responsed" in f.items {
      assert f.Get("rl_responsed") == Some(f.items["rl_responsed"]);
    }
    if "image_received" in f.items {
      assert f.Get("image_received") == Some(f.items["image_received"]);
    }
  }

  /** The message announcing a stored alert. */
  function AlertAnnouncement(kind: string, id: nat, record: Fields, now: string): Value {
    Message([
      ("type", Str(kind)),
      ("alert_id", Str(DecimalText(id))),
      ("data", SerializeDatetime(Object(record))),
      ("timestamp", Str(now))])
  }

  /** `handle_alert_from_drone(drone_id, alert_data)` */
  function AlertW(w: World, dead: set<Socket>, droneId: string, data: Value, now: string): (r: World)
    requires w.apps.Valid()
    ensures IsPrefix(w.outbox, r.outbox)
  {
    match ClassifyAlert(data)
    case None => w
    case Some(c) =>
      BroadcastW(Logged(w, droneId, c.record), dead, Applications, AlertAnnouncement(c.kind, w.nextId, c.record, now), now)
  }

  /** `insert_alert(alert_data)` under the next fresh id, and `drone_alerts[drone_id]` set to that id. */
  function Logged(w: World, droneId: string, record: Fields): (r: World)
    ensures r == w.(alerts := r.alerts, nextId := r.nextId, droneAlerts := r.droneAlerts)
  {
    w.(alerts := w.alerts + [Doc(w.nextId, record)], nextId := w.nextId + 1, droneAlerts := w.droneAlerts.Put(droneId, w.nextId))
  }

  /**
    A classified alert is stored exactly once under a fresh id, the drone is
    mapped to that id, and only applications are sent anything; an
    unclassifiable payload changes nothing.
   */
  lemma AlertEffect(w: World, dead: set<Socket>, droneId: string, data: Value, now: string)
    requires WorldValid(w) && Disjoint(w)
    requires droneId !in w.apps.items
    ensures ClassifyAlert(data).None? ==> AlertW(w, dead, droneId, data, now) == w
    ensures ClassifyAlert(data).Some? ==>
      var c := ClassifyAlert(data).value;
      var r := AlertW(w, dead, droneId, data, now);
      && r.alerts == w.alerts + [Doc(w.nextId, c.record)]
      && (forall i :: 0 <= i < |w.alerts| ==> w.alerts[i].id != w.nextId)
      && r.alertImages == w.alertImages
      && r.droneAlerts.Get(droneId) == Some(w.nextId)
      && r.drones == w.drones
      && r.outbox[..|w.outbox|] == w.outbox
      && (forall e :: e in r.outbox[|w.outbox|..] ==>
            && e.Sent? && e.recipient in w.apps.items
            && e.message == SerializeDatetime(AlertAnnouncement(c.kind, w.nextId, c.record, now)))
  {
    match ClassifyAlert(data)
    case None =>
    case Some(c) =>
      var stored := Logged(w, droneId, c.record);
      var msg := AlertAnnouncement(c.kind, w.nextId, c.record, now);
      BroadcastToApplicationsEffect(stored, dead, msg, now);
      AlertMappingSurvives(stored, dead, droneId, msg, now);
  }

  /** A broadcast to the applications does not touch the alert mapping of an id that is not an application. */
  lemma AlertMappingSurvives(w: World, dead: set<Socket>, droneId: string, msg: Value, now: string)
    requires w.apps.Valid()
    requires droneId !in w.apps.items
    ensures BroadcastW(w, dead, Applications, msg, now).droneAlerts.Get(droneId) == w.droneAlerts.Get(droneId)
  {
    if w.apps.Len() != 0 {
      var entries := w.apps.Entries();
      var sent := w.(outbox := w.outbox + Deliveries(entries, dead, SerializeDatetime(msg)));
      var failed := FailedIds(entries, dead);
      FailedOfMembers(w.apps, dead);
      DisconnectAllKeeps(sent, failed, droneId, now);
    }
  }

  /** Disconnecting other ids leaves an id's alert mapping alone. */
  lemma {:induction false} DisconnectAllKeeps(w: World, ids: seq<string>, keep: string, now: string)
    requires keep !in ids
    ensures DisconnectAllW(w, ids, now).droneAlerts.Get(keep) == w.droneAlerts.Get(keep)
  {
    if |ids| != 0 {
      DisconnectAllKeeps(w, ids[..|ids| - 1], keep, now);
    }
  }

  // ------------------------------------------------------------------
  // alert images
  // ------------------------------------------------------------------

  /** `find({'name': name})[0]`: the first stored image whose `name` equals `name`. */
  function FindByName(docs: seq<Doc>, name: Value): (r: Option<nat>)
    ensures r.Some? ==> r.value < |docs| && docs[r.value].fields.Get("name") == Some(name)
    ensures r.Some? ==> forall j :: 0 <= j < r.value ==> docs[j].fields.Get("name") != Some(name)
    ensures r.None? ==> forall j :: 0 <= j < |docs| ==> docs[j].fields.Get("name") != Some(name)
  {
    if |docs| == 0 then None
    else if docs[0].fields.Get("name") == Some(name) then Some(0)
    else match FindByName(docs[1..], name)
      case None => None
      case Some(k) => Some(k + 1)
  }

  /** An image document from a drone: merged (`$set`) into the first with the same non-empty name, inserted otherwise. */
  function StoreDroneImage(w: World, data: Fields): (r: World)
    requires data.Valid()
    ensures r == w.(alertImages := r.alertImages, nextId := r.nextId)
  {
    var name := data.Get("name");
    var found := if name.Some? && Truthy(name.value) then FindByName(w.alertImages, name.value) else None;
    match found
    case Some(k) =>
      w.(alertImages := w.alertImages[k := Doc(w.alertImages[k].id, Update(w.alertImages[k].fields, data))])
    case None =>
      w.(alertImages := w.alertImages + [Doc(w.nextId, data)], nextId := w.nextId + 1)
  }

  /** A named image that matches replaces no document and adds none; any other image adds one new document. */
  lemma StoreDroneImageEffect(w: World, data: Fields)
    requires data.Valid()
    ensures var name := data.Get("name");
      var r := StoreDroneImage(w, data);
      && r.alerts == w.alerts && r.outbox == w.outbox && r.drones == w.drones && r.apps == w.apps
      && (if name.Some? && Truthy(name.value) && FindByName(w.alertImages, name.value).Some? then
            var k := FindByName(w.alertImages, name.value).value;
            && |r.alertImages| == |w.alertImages| && r.nextId == w.nextId
            && r.alertImages[k].id == w.alertImages[k].id
            && r.alertImages[k].fields.items == w.alertImages[k].fields.items + data.items
            && (forall j :: 0 <= j < |w.alertImages| && j != k ==> r.alertImages[j] == w.alertImages[j])
          else
            r.alertImages == w.alertImages + [Doc(w.nextId, data)] && r.nextId == w.nextId + 1)
  {
  }

  /** The message relaying an alert image. */
  function ImageAnnouncement(data: Value, now: string): Value {
    Message([("type", Str("alert_image")), ("data", SerializeDatetime(data)), ("timestamp", Str(now))])
  }

  /** `handle_alert_image_from_drone(drone_id, alert_image_data)` */
  function ImageFromDroneW(w: World, dead: set<Socket>, droneId: string, data: Value, now: string): (r: World)
    requires w.apps.Valid() && WellFormed(data)
    ensures IsPrefix(w.outbox, r.outbox)
  {
    if !data.Object? then w
    else
      var stored := StoreDroneImage(w, data.fields);
      var msg := ImageAnnouncement(data, now);
      var broadcast := BroadcastW(stored, dead, Applications, msg, now);
      RelayW(broadcast, dead, droneId, broadcast.drones.keys, msg, now)
  }

  /** With every socket live, the image goes to every application and to every drone but the sender. */
  lemma ImageFromDroneReachesAll(w: World, dead: set<Socket>, droneId: string, data: Value, now: string)
    requires w.apps.Valid() && w.drones.Valid() && WellFormed(data) && data.Object?
    requires forall id :: id in w.apps.items ==> w.apps.items[id] !in dead
    requires forall id :: id in w.drones.items ==> w.drones.items[id] !in dead
    ensures var r := ImageFromDroneW(w, dead, droneId, data, now);
      var m := SerializeDatetime(ImageAnnouncement(data, now));
      && r.drones == w.drones && r.apps == w.apps
      && (forall id :: id in w.apps.items ==> Sent(id, w.apps.items[id], m) in r.outbox[|w.outbox|..])
      && (forall id :: id in w.drones.items && id != droneId ==> Sent(id, w.drones.items[id], m) in r.outbox[|w.outbox|..])
      && (forall e :: e in r.outbox[|w.outbox|..] ==> e.Sent? && e.message == m && (e.recipient in w.apps.items || (e.recipient in w.drones.items && e.recipient != droneId)))
  {
    var msg := ImageAnnouncement(data, now);
    var m := SerializeDatetime(msg);
    var broadcast := BroadcastW(StoreDroneImage(w, data.fields), dead, Applications, msg, now);
    ImageReachesApplications(w, dead, data, now);
    var ids := broadcast.drones.keys;
    RelayReachesOtherDrones(broadcast, dead, droneId, ids, msg, now);
    var sends := RelaySends(broadcast, droneId, ids, m);
    RelaySendsContents(broadcast, droneId, ids, m);
    var r := RelayW(broadcast, dead, droneId, ids, msg, now);
    assert r.outbox == broadcast.outbox + sends;
    SliceOfAppend(broadcast.outbox, sends, |w.outbox|);
  }

  /** With every application socket live, the first phase of the drone image handler reaches every application and disconnects nobody. */
  lemma ImageReachesApplications(w: World, dead: set<Socket>, data: Value, now: string)
    requires w.apps.Valid() && WellFormed(data) && data.Object?
    requires forall id :: id in w.apps.items ==> w.apps.items[id] !in dead
    ensures var b := BroadcastW(StoreDroneImage(w, data.fields), dead, Applications, ImageAnnouncement(data, now), now);
      var m := SerializeDatetime(ImageAnnouncement(data, now));
      && b.apps == w.apps && b.drones == w.drones
      && |w.outbox| <= |b.outbox|
      && (forall id :: id in w.apps.items ==> Sent(id, w.apps.items[id], m) in b.outbox[|w.outbox|..])
      && (forall e :: e in b.outbox[|w.outbox|..] ==> e.Sent? && e.message == m && e.recipient in w.apps.items)
  {
    var stored := StoreDroneImage(w, data.fields);
    var msg := ImageAnnouncement(data, now);
    var m := SerializeDatetime(msg);
    BroadcastSends(stored, dead, Applications, msg, now);
    NoFailureKeepsApps(stored, dead, msg, now);
    AllLiveSends(w.apps, dead, m);
    assert BroadcastW(stored, dead, Applications, msg, now).outbox[|w.outbox|..]
        == SendsTo(KeepWhere(w.apps.keys, w.apps.items, Live(dead)), w.apps.items, m);
  }

  /** When every member's socket is live, the sends to the live members reach every member and no one else. */
  lemma AllLiveSends(members: Dict<string, Socket>, dead: set<Socket>, m: Value)
    requires members.Valid()
    requires forall id :: id in members.items ==> members.items[id] !in dead
    ensures var sends := SendsTo(KeepWhere(members.keys, members.items, Live(dead)), members.items, m);
      && (forall id :: id in members.items ==> Sent(id, members.items[id], m) in sends)
      && (forall e :: e in sends ==> e.Sent? && e.message == m && e.recipient in members.items)
  {
    var live := KeepWhere(members.keys, members.items, Live(dead));
    var sends := SendsTo(live, members.items, m);
    forall id | id in members.items ensures Sent(id, members.items[id], m) in sends {
      var i :| 0 <= i < |live| && live[i] == id;
      assert sends[i] == Sent(id, members.items[id], m);
    }
    forall e | e in sends ensures e.Sent? && e.message == m && e.recipient in members.items {
      var i :| 0 <= i < |sends| && sends[i] == e;
    }
  }

  /** Dropping a prefix of the first part of a concatenation. */
  lemma SliceOfAppend<T>(a: seq<T>, b: seq<T>, n: nat)
    requires n <= |a|
    ensures (a + b)[n..] == a[n..] + b
  {
  }

  /** A broadcast in which no send fails leaves the role maps exactly as they were. */
  lemma NoFailureKeepsApps(w: World, dead: set<Socket>, msg: Value, now: string)
    requires w.apps.Valid()
    requires forall id :: id in w.apps.items ==> w.apps.items[id] !in dead
    ensures BroadcastW(w, dead, Applications, msg, now).apps == w.apps
    ensures BroadcastW(w, dead, Applications, msg, now).drones == w.drones
  {
    if w.apps.Len() != 0 {
      NoneFailed(w.apps.Entries(), dead);
    }
  }

  /** No send fails when no socket is dead. */
  lemma {:induction false} NoneFailed(entries: seq<(string, Socket)>, dead: set<Socket>)
    requires forall i :: 0 <= i < |entries| ==> entries[i].1 !in dead
    ensures FailedIds(entries, dead) == []
  {
    if |entries| != 0 {
      NoneFailed(entries[..|entries| - 1], dead);
    }
  }

  /** `handle_alert_image_from_application(app_id, alert_image_data)`: always a new document, relayed to the drones only. */
  function ImageFromApplicationW(w: World, dead: set<Socket>, appId: string, data: Value, now: string): (r: World)
    requires w.drones.Valid()
    ensures IsPrefix(w.outbox, r.outbox)
  {
    if !data.Object? then w
    else BroadcastW(InsertImage(w, data.fields), dead, Drones, ImageAnnouncement(data, now), now)
  }

  /** `create_alert_image(alert_image_data)` under the next fresh id. */
  function InsertImage(w: World, fields: Fields): (r: World)
    ensures r == w.(alertImages := r.alertImages, nextId := r.nextId)
  {
    w.(alertImages := w.alertImages + [Doc(w.nextId, fields)], nextId := w.nextId + 1)
  }

  /** An application's image is always inserted, even under a name already stored, and only drones are sent anything. */
  lemma ImageFromApplicationEffect(w: World, dead: set<Socket>, appId: string, data: Value, now: string)
    requires w.drones.Valid() && data.Object?
    ensures var r := ImageFromApplicationW(w, dead, appId, data, now);
      && r.alertImages == w.alertImages + [Doc(w.nextId, data.fields)]
      && r.alerts == w.alerts && r.apps == w.apps
      && r.outbox[..|w.outbox|] == w.outbox
      && (forall e :: e in r.outbox[|w.outbox|..] ==> e.Sent? && e.recipient in w.drones.items)
  {
    BroadcastToDronesEffect(InsertImage(w, data.fields), dead, ImageAnnouncement(data, now), now);
  }

  // ------------------------------------------------------------------
  // dispatch
  // ------------------------------------------------------------------

  /** `message_data.get('data', {})` */
  function Payload(message: Fields): Value {
    message.Get("data").GetOr(Object(Empty()))
  }

  /** The `pong` answer to a `ping`. */
  function Pong(now: string): Value {
    Message([("type", Str("pong")), ("timestamp", Str(now))])
  }

  /** `handle_websocket_message(client_id, message_data)` */
  function DispatchW(w: World, dead: set<Socket>, id: string, message: Value, now: string): (r: World)
    requires RolesValid(w) && WellFormed(message)
    ensures IsPrefix(w.outbox, r.outbox)
  {
    if !message.Object? then w
    else
      var mtype := message.fields.Get("type");
      match w.info.Get(id)
      case None => w
      case Some(c) =>
        var data := Payload(message.fields);
        assert WellFormed(data) by {
          if "data" in message.fields.items {
            assert message.fields.Get("data") == Some(message.fields.items["data"]);
          }
        }
        if c.clientType == "" then w
        else if mtype == Some(Str("alert")) then
          if c.clientType == "drone" then AlertW(w, dead, id, data, now) else w
        else if mtype == Some(Str("alert_image")) then
          if c.clientType == "drone" then ImageFromDroneW(w, dead, id, data, now)
          else if c.clientType == "application" then ImageFromApplicationW(w, dead, id, data, now)
          else w
        else if mtype == Some(Str("ping")) then SendPersonalW(w, dead, id, Pong(now), now)
        else w
  }

  /** The message type of a dict message. */
  function TypeOf(message: Value): Option<Value> {
    if message.Object? then message.fields.Get("type") else None
  }

  /** A `ping` from a connected client with a live socket is answered with exactly one `pong` to that client. */
  lemma DispatchPing(w: World, dead: set<Socket>, id: string, message: Value, now: string)
    requires WorldValid(w) && WellFormed(message)
    requires id in w.info.items && TypeOf(message) == Some(Str("ping"))
    ensures SocketOf(w, id).Some?
    ensures SocketOf(w, id).value !in dead ==>
      DispatchW(w, dead, id, message, now) == w.(outbox := w.outbox + [Sent(id, SocketOf(w, id).value, SerializeDatetime(Pong(now)))])
  {
    assert Recorded(w, id);
    assert w.info.Get(id) == Some(w.info.items[id]) && w.info.items[id].clientType != "";
    assert DispatchW(w, dead, id, message, now) == SendPersonalW(w, dead, id, Pong(now), now);
    SendPersonalEffect(w, dead, id, Pong(now), now);
  }

  /** The dispatcher routes alerts and images by the sender's recorded role. */
  lemma DispatchRoutes(w: World, dead: set<Socket>, id: string, message: Value, now: string)
    requires RolesValid(w) && WellFormed(message) && message.Object?
    requires id in w.info.items
    ensures var role := w.info.items[id].clientType;
      var data := Payload(message.fields);
      && (TypeOf(message) == Some(Str("alert")) && role == "drone" ==>
            DispatchW(w, dead, id, message, now) == AlertW(w, dead, id, data, now))
      && (TypeOf(message) == Some(Str("alert_image")) && role == "drone" ==>
            DispatchW(w, dead, id, message, now) == ImageFromDroneW(w, dead, id, data, now))
      && (TypeOf(message) == Some(Str("alert_image")) && role == "application" ==>
            DispatchW(w, dead, id, message, now) == ImageFromApplicationW(w, dead, id, data, now))
  {
    var data := Payload(message.fields);
    assert WellFormed(data) by {
      if "data" in message.fields.items {
        assert message.fields.Get("data") == Some(message.fields.items["data"]);
      }
    }
  }

  /**
    A dispatched message loses no stored alert or image and adds at most one
    of each; only an alert from a connected drone adds an alert, and only an
    alert image from a connected client touches the images.
   */
  lemma DispatchStores(w: World, dead: set<Socket>, id: string, message: Value, now: string)
    requires RolesValid(w) && WellFormed(message)
    ensures var r := DispatchW(w, dead, id, message, now);
      && IsPrefix(w.alerts, r.alerts) && |r.alerts| <= |w.alerts| + 1
      && |w.alertImages| <= |r.alertImages| <= |w.alertImages| + 1
      && (r.alerts != w.alerts ==> TypeOf(message) == Some(Str("alert")) && id in w.info.items && w.info.items[id].clientType == "drone")
      && (r.alertImages != w.alertImages ==> TypeOf(message) == Some(Str("alert_image")) && id in w.info.items)
  {
    if message.Object? && id in w.info.items {
      DispatchRoutes(w, dead, id, message, now);
      var data := Payload(message.fields);
      var role := w.info.items[id].clientType;
      if TypeOf(message) == Some(Str("alert_image")) && role == "drone" && data.Object? {
        var stored := StoreDroneImage(w, data.fields);
        StoreDroneImageEffect(w, data.fields);
        assert Stores(ImageFromDroneW(w, dead, id, data, now)) == Stores(stored);
      } else if TypeOf(message) == Some(Str("alert_image")) && role == "application" && data.Object? {
        assert Stores(ImageFromApplicationW(w, dead, id, data, now)) == Stores(InsertImage(w, data.fields));
      }
    }
  }

  /** A dispatched message keeps every alert mapping on an id with a connection record. */
  lemma DispatchKeepsAlertsTracked(w: World, dead: set<Socket>, id: string, message: Value, now: string)
    requires RolesValid(w) && WellFormed(message) && AlertsTracked(w)
    ensures AlertsTracked(DispatchW(w, dead, id, message, now))
  {
    if message.Object? && id in w.info.items {
      DispatchRoutes(w, dead, id, message, now);
      var data := Payload(message.fields);
      assert WellFormed(data) by {
        if "data" in message.fields.items {
          assert message.fields.Get("data") == Some(message.fields.items["data"]);
        }
      }
      var role := w.info.items[id].clientType;
      if TypeOf(message) == Some(Str("alert")) && role == "drone" {
        AlertTracks(w, dead, id, data, now);
      } else if TypeOf(message) == Some(Str("alert_image")) && role == "drone" {
        ImageFromDroneTracks(w, dead, id, data, now);
      } else if TypeOf(message) == Some(Str("alert_image")) && role == "application" {
        if data.Object? {
          BroadcastTracks(InsertImage(w, data.fields), dead, Drones, ImageAnnouncement(data, now), now);
        }
      } else if TypeOf(message) == Some(Str("ping")) {
        SendTracks(w, dead, id, Pong(now), now);
      }
    }
  }

  /** An alert from a recorded drone maps the drone to its alert and keeps every mapping on a recorded connection. */
  lemma AlertTracks(w: World, dead: set<Socket>, droneId: string, data: Value, now: string)
    requires w.apps.Valid() && AlertsTracked(w) && droneId in w.info.items
    ensures AlertsTracked(AlertW(w, dead, droneId, data, now))
  {
    match ClassifyAlert(data)
    case None =>
    case Some(c) =>
      BroadcastTracks(Logged(w, droneId, c.record), dead, Applications, AlertAnnouncement(c.kind, w.nextId, c.record, now), now);
  }

  /** The drone image handler only disconnects, so every mapping stays on a recorded connection. */
  lemma ImageFromDroneTracks(w: World, dead: set<Socket>, droneId: string, data: Value, now: string)
    requires w.apps.Valid() && WellFormed(data) && AlertsTracked(w)
    ensures AlertsTracked(ImageFromDroneW(w, dead, droneId, data, now))
  {
    if data.Object? {
      var stored := StoreDroneImage(w, data.fields);
      var msg := ImageAnnouncement(data, now);
      BroadcastTracks(stored, dead, Applications, msg, now);
      var broadcast := BroadcastW(stored, dead, Applications, msg, now);
      RelayTracks(broadcast, dead, droneId, broadcast.drones.keys, msg, now);
    }
  }

  /** Every id with an alert mapping has a connection record. */
  ghost predicate AlertsTracked(w: World) {
    forall d :: d in w.droneAlerts.items ==> d in w.info.items
  }

  /** A disconnect drops the record and the mapping together. */
  lemma DisconnectTracks(w: World, id: string, now: string)
    requires AlertsTracked(w)
    ensures AlertsTracked(DisconnectW(w, id, now))
  {
  }

  /** So does a sequence of disconnects. */
  lemma {:induction false} DisconnectAllTracks(w: World, ids: seq<string>, now: string)
    requires AlertsTracked(w)
    ensures AlertsTracked(DisconnectAllW(w, ids, now))
  {
    if |ids| != 0 {
      DisconnectAllTracks(w, ids[..|ids| - 1], now);
      DisconnectTracks(DisconnectAllW(w, ids[..|ids| - 1], now), ids[|ids| - 1], now);
    }
  }

  /** A personal message either only sends or disconnects. */
  lemma SendTracks(w: World, dead: set<Socket>, id: string, msg: Value, now: string)
    requires AlertsTracked(w)
    ensures AlertsTracked(SendPersonalW(w, dead, id, msg, now))
  {
    DisconnectTracks(w, id, now);
  }

  /** A broadcast only sends and disconnects. */
  lemma BroadcastTracks(w: World, dead: set<Socket>, role: Role, msg: Value, now: string)
    requires Members(w, role).Valid() && AlertsTracked(w)
    ensures AlertsTracked(BroadcastW(w, dead, role, msg, now))
  {
    var members := Members(w, role);
    if members.Len() != 0 {
      var entries := members.Entries();
      DisconnectAllTracks(w.(outbox := w.outbox + Deliveries(entries, dead, SerializeDatetime(msg))), FailedIds(entries, dead), now);
    }
  }

  /** The relay only sends and disconnects. */
  lemma {:induction false} RelayTracks(w: World, dead: set<Socket>, sender: string, ids: seq<string>, msg: Value, now: string)
    requires AlertsTracked(w)
    ensures AlertsTracked(RelayW(w, dead, sender, ids, msg, now))
  {
    if |ids| != 0 {
      RelayTracks(w, dead, sender, ids[..|ids| - 1], msg, now);
      SendTracks(RelayW(w, dead, sender, ids[..|ids| - 1], msg, now), dead, ids[|ids| - 1], msg, now);
    }
  }

  // ------------------------------------------------------------------
  // the invariant
  // ------------------------------------------------------------------

  /** A disconnect keeps the invariant. */
  lemma DisconnectKeepsValid(w: World, id: string, now: string)
    requires WorldValid(w)
    ensures WorldValid(DisconnectW(w, id, now))
  {
    var r := DisconnectW(w, id, now);
    WentOfflineEffect(w.clients, id, now);
    forall k | k in r.info.items ensures Recorded(r, k) {
      assert k != id && k in w.info.items && Recorded(w, k);
      assert r.drones.Get(k) == w.drones.Get(k) && r.apps.Get(k) == w.apps.Get(k);
    }
  }

  /** So does a sequence of disconnects. */
  lemma {:induction false} DisconnectAllKeepsValid(w: World, ids: seq<string>, now: string)
    requires WorldValid(w)
    ensures WorldValid(DisconnectAllW(w, ids, now))
  {
    if |ids| != 0 {
      DisconnectAllKeepsValid(w, ids[..|ids| - 1], now);
      DisconnectKeepsValid(DisconnectAllW(w, ids[..|ids| - 1], now), ids[|ids| - 1], now);
    }
  }

  /** A personal message keeps the invariant. */
  lemma SendKeepsValid(w: World, dead: set<Socket>, id: string, msg: Value, now: string)
    requires WorldValid(w)
    ensures WorldValid(SendPersonalW(w, dead, id, msg, now))
  {
    DisconnectKeepsValid(w, id, now);
  }

  /** A broadcast keeps the invariant. */
  lemma BroadcastKeepsValid(w: World, dead: set<Socket>, role: Role, msg: Value, now: string)
    requires WorldValid(w)
    ensures WorldValid(BroadcastW(w, dead, role, msg, now))
  {
    var members := Members(w, role);
    if members.Len() != 0 {
      var entries := members.Entries();
      DisconnectAllKeepsValid(w.(outbox := w.outbox + Deliveries(entries, dead, SerializeDatetime(msg))), FailedIds(entries, dead), now);
    }
  }

  /** The relay keeps the invariant. */
  lemma {:induction false} RelayKeepsValid(w: World, dead: set<Socket>, sender: string, ids: seq<string>, msg: Value, now: string)
    requires WorldValid(w)
    ensures WorldValid(RelayW(w, dead, sender, ids, msg, now))
  {
    if |ids| != 0 {
      RelayKeepsValid(w, dead, sender, ids[..|ids| - 1], msg, now);
      SendKeepsValid(RelayW(w, dead, sender, ids[..|ids| - 1], msg, now), dead, ids[|ids| - 1], msg, now);
    }
  }

  /** Registering a known id keeps the invariant. */
  lemma AdmittedKeepsValid(w: World, id: string, clientType: string, now: string)
    requires WorldValid(w) && id in w.clients.items
    ensures WorldValid(Admitted(w, id, clientType, now))
  {
    assert Admitted(w, id, clientType, now).info == w.info;
  }

  /** Storing a socket under its role and recording the connection keeps the invariant. */
  lemma StoredKeepsValid(w: World, id: string, clientType: string, ws: Socket, now: string)
    requires WorldValid(w) && (clientType == "drone" || clientType == "application")
    ensures WorldValid(Stored(w, id, clientType, ws, now))
  {
    var r := Stored(w, id, clientType, ws, now);
    forall k | k in r.info.items ensures Recorded(r, k) {
      if k != id {
        assert Recorded(w, k);
        assert r.info.Get(k) == w.info.Get(k);
      }
    }
  }

  /** A connect keeps the invariant. */
  lemma ConnectKeepsValid(w: World, dead: set<Socket>, ws: Socket, clientType: string, requested: Option<string>, freshId: string, now: string)
    requires WorldValid(w)
    ensures WorldValid(ConnectW(w, dead, ws, clientType, requested, freshId, now).0)
  {
    var id := ChosenId(requested, freshId);
    if IsAuthorized(w.clients, id) {
      AdmittedKeepsValid(w, id, clientType, now);
      if clientType == "drone" || clientType == "application" {
        var admitted := Admitted(w, id, clientType, now);
        StoredKeepsValid(admitted, id, clientType, ws, now);
        SendKeepsValid(Stored(admitted, id, clientType, ws, now), dead, id, Welcome(id, clientType, admitted.clients.items[id], now), now);
      }
    }
  }

  /** Storing an alert under the next id keeps the invariant. */
  lemma LoggedKeepsValid(w: World, droneId: string, record: Fields)
    requires WorldValid(w)
    ensures WorldValid(Logged(w, droneId, record))
  {
  }

  /** An alert keeps the invariant. */
  lemma AlertKeepsValid(w: World, dead: set<Socket>, droneId: string, data: Value, now: string)
    requires WorldValid(w)
    ensures WorldValid(AlertW(w, dead, droneId, data, now))
  {
    match ClassifyAlert(data)
    case None =>
    case Some(c) =>
      LoggedKeepsValid(w, droneId, c.record);
      BroadcastKeepsValid(Logged(w, droneId, c.record), dead, Applications, AlertAnnouncement(c.kind, w.nextId, c.record, now), now);
  }

  /** Storing a drone image, merged or inserted, keeps the invariant. */
  lemma StoreDroneImageKeepsValid(w: World, data: Fields)
    requires WorldValid(w) && data.Valid()
    ensures WorldValid(StoreDroneImage(w, data))
  {
  }

  /** The drone image handler keeps the invariant. */
  lemma ImageFromDroneKeepsValid(w: World, dead: set<Socket>, droneId: string, data: Value, now: string)
    requires WorldValid(w) && WellFormed(data)
    ensures WorldValid(ImageFromDroneW(w, dead, droneId, data, now))
  {
    if data.Object? {
      var stored := StoreDroneImage(w, data.fields);
      var msg := ImageAnnouncement(data, now);
      StoreDroneImageKeepsValid(w, data.fields);
      BroadcastKeepsValid(stored, dead, Applications, msg, now);
      var broadcast := BroadcastW(stored, dead, Applications, msg, now);
      RelayKeepsValid(broadcast, dead, droneId, broadcast.drones.keys, msg, now);
    }
  }

  /** Inserting an image under the next id keeps the invariant. */
  lemma InsertImageKeepsValid(w: World, fields: Fields)
    requires WorldValid(w)
    ensures WorldValid(InsertImage(w, fields))
  {
  }

  /** The application image handler keeps the invariant. */
  lemma ImageFromApplicationKeepsValid(w: World, dead: set<Socket>, appId: string, data: Value, now: string)
    requires WorldValid(w)
    ensures WorldValid(ImageFromApplicationW(w, dead, appId, data, now))
  {
    if data.Object? {
      InsertImageKeepsValid(w, data.fields);
      BroadcastKeepsValid(InsertImage(w, data.fields), dead, Drones, ImageAnnouncement(data, now), now);
    }
  }

  /** Every dispatched message keeps the invariant. */
  lemma DispatchKeepsValid(w: World, dead: set<Socket>, id: string, message: Value, now: string)
    requires WorldValid(w) && WellFormed(message)
    ensures WorldValid(DispatchW(w, dead, id, message, now))
  {
    if message.Object? && id in w.info.items {
      DispatchRoutes(w, dead, id, message, now);
      var data := Payload(message.fields);
      assert WellFormed(data) by {
        if "data" in message.fields.items {
          assert message.fields.Get("data") == Some(message.fields.items["data"]);
        }
      }
      var role := w.info.items[id].clientType;
      if TypeOf(message) == Some(Str("alert")) && role == "drone" {
        AlertKeepsValid(w, dead, id, data, now);
      } else if TypeOf(message) == Some(Str("alert_image")) && role == "drone" {
        ImageFromDroneKeepsValid(w, dead, id, data, now);
      } else if TypeOf(message) == Some(Str("alert_image")) && role == "application" {
        ImageFromApplicationKeepsValid(w, dead, id, data, now);
      } else if TypeOf(message) == Some(Str("ping")) {
        SendKeepsValid(w, dead, id, Pong(now), now);
      }
    }
  }

  // ------------------------------------------------------------------
  // statistics
  // ------------------------------------------------------------------

  /** `get_connection_stats()` */
  datatype ConnectionStats = ConnectionStats(totalConnections: nat, droneConnections: nat, applicationConnections: nat, activeAlerts: nat)

  /** Every recorded connection holds a drone or an application socket, so there are no more records than sockets. */
  lemma ConnectionsBounded(w: World)
    requires WorldValid(w)
    ensures w.info.Len() <= w.drones.Len() + w.apps.Len()
  {
    LenIsSize(w.info);
    LenIsSize(w.drones);
    LenIsSize(w.apps);
    assert w.info.items.Keys <= w.drones.items.Keys + w.apps.items.Keys by {
      forall id | id in w.info.items ensures id in w.drones.items || id in w.apps.items {
        assert Recorded(w, id);
      }
    }
    SubsetSize(w.info.items.Keys, w.drones.items.Keys + w.apps.items.Keys);
    UnionSize(w.drones.items.Keys, w.apps.items.Keys);
  }

  lemma UnionSize<T>(a: set<T>, b: set<T>)
    ensures |a + b| <= |a| + |b|
  {
    assert a + b == a + (b - a);
    assert |b - a| <= |b| by {
      SubsetSize(b - a, b);
    }
  }

  // ------------------------------------------------------------------
  // the manager
  // ------------------------------------------------------------------

  /** The first loop of a broadcast: the sends that succeed, and `disconnected_clients`. */
  method SendAll(entries: seq<(string, Socket)>, dead: set<Socket>, m: Value) returns (sends: seq<Event>, failed: seq<string>)
    ensures sends == Deliveries(entries, dead, m)
    ensures failed == FailedIds(entries, dead)
  {
    sends, failed := [], [];
    var i := 0;
    while i < |entries|
      invariant 0 <= i <= |entries|
      invariant sends == Deliveries(entries[..i], dead, m)
      invariant failed == FailedIds(entries[..i], dead)
    {
      var (id, socket) := entries[i];
      assert entries[..i + 1][..i] == entries[..i];
      if socket in dead {
        failed := failed + [id];
      } else {
        sends := sends + [Sent(id, socket, m)];
      }
      i := i + 1;
    }
    assert entries[..i] == entries;
  }

  class WebSocketManager {
    /** The client registry the manager registers and unregisters clients in. */
    const registry: ClientRegistry
    /** The sockets on which a send raises. */
    const dead: set<Socket>
    /** `self.drone_connections` */
    var droneConnections: Dict<string, Socket>
    /** `self.application_connections` */
    var applicationConnections: Dict<string, Socket>
    /** `self.connection_info` */
    var connectionInfo: Dict<string, ConnectionInfo>
    /** `self.drone_alerts`: the last alert id of each drone. */
    var droneAlerts: Dict<string, nat>
    /** The alert collection. */
    var alerts: seq<Doc>
    /** The alert-image collection. */
    var alertImages: seq<Doc>
    /** The next fresh document id. */
    var nextId: nat
    /** Every send and close, in order. */
    var outbox: seq<Event>

    ghost function State(): World
      reads this, registry
    {
      World(droneConnections, applicationConnections, connectionInfo, droneAlerts,
            registry.clients, registry.online, registry.persisted,
            alerts, alertImages, nextId, outbox)
    }

    ghost predicate Valid()
      reads this, registry
    {
      registry.Valid() && WorldValid(State())
    }

    /** `WebSocketManager()`, over a registry. */
    constructor (registry: ClientRegistry, dead: set<Socket>)
      requires registry.Valid()
      ensures Valid()
      ensures this.registry == registry && this.dead == dead
      ensures droneConnections == Empty() && applicationConnections == Empty()
      ensures connectionInfo == Empty() && droneAlerts == Empty()
      ensures alerts == [] && alertImages == [] && nextId == 0 && outbox == []
    {
      this.registry := registry;
      this.dead := dead;
      droneConnections, applicationConnections := Empty(), Empty();
      connectionInfo, droneAlerts := Empty(), Empty();
      alerts, alertImages, nextId, outbox := [], [], 0, [];
    }

    /** `connect(websocket, client_type, client_id)`; `freshId` stands for `uuid.uuid4()` and `now` for the clock. */
    method Connect(ws: Socket, clientType: string, requested: Option<string>, freshId: string, now: string) returns (r: Option<string>)
      requires Valid()
      modifies this, registry
      ensures Valid()
      ensures (State(), r) == ConnectW(old(State()), dead, ws, clientType, requested, freshId, now)
    {
      ghost var w0 := State();
      var id := if requested.None? || requested.value == "" then freshId else requested.value;
      assert id == ChosenId(requested, freshId);
      if !IsClientAuthorized(registry, id) {
        Close(id, ws, "Client not authorized");
        return None;
      }
      r := Admit(ws, id, clientType, now);
    }

    /** The rest of `connect` for an authorized id. */
    method Admit(ws: Socket, id: string, clientType: string, now: string) returns (r: Option<string>)
      requires Valid() && IsAuthorized(registry.clients, id)
      modifies this, registry
      ensures Valid()
      ensures (State(), r) == AdmitW(old(State()), dead, ws, id, clientType, now)
    {
      ghost var w0 := State();
      RegisterKnownClient(w0.clients, id, clientType, NoUpdate, now);
      var registered := registry.Register(id, clientType, NoUpdate, now);
      ghost var admitted := Admitted(w0, id, clientType, now);
      assert registry.clients == admitted.clients;
      assert State() == admitted;
      AdmittedKeepsValid(w0, id, clientType, now);
      var info := registered.value;
      assert info == admitted.clients.items[id];
      if clientType != "drone" && clientType != "application" {
        Close(id, ws, "Invalid client type");
        return None;
      }
      Store(id, clientType, ws, now);
      ghost var stored := Stored(admitted, id, clientType, ws, now);
      SendPersonalMessage(id, Welcome(id, clientType, info, now), now);
      assert State() == SendPersonalW(stored, dead, id, Welcome(id, clientType, info, now), now);
      return Some(id);
    }

    /** `websocket.close(code=1008, reason=...)`, recorded in the outbox. */
    method Close(id: string, ws: Socket, reason: string)
      requires Valid()
      modifies this
      ensures Valid()
      ensures State() == old(State()).(outbox := old(outbox) + [Closed(id, ws, PolicyViolation, reason)])
    {
      outbox := outbox + [Closed(id, ws, PolicyViolation, reason)];
    }

    /** The store step of `connect`: the socket under its role, and the connection's record. */
    method Store(id: string, clientType: string, ws: Socket, now: string)
      requires Valid() && (clientType == "drone" || clientType == "application")
      modifies this
      ensures Valid()
      ensures State() == Stored(old(State()), id, clientType, ws, now)
    {
      ghost var w0 := State();
      if clientType == "drone" {
        droneConnections := droneConnections.Put(id, ws);
      } else {
        applicationConnections := applicationConnections.Put(id, ws);
      }
      connectionInfo := connectionInfo.Put(id, ConnectionInfo(id, clientType, now));
      assert State() == Stored(w0, id, clientType, ws, now);
      StoredKeepsValid(w0, id, clientType, ws, now);
    }

    /** `disconnect(client_id)` */
    method Disconnect(id: string, now: string)
      requires Valid()
      modifies this, registry
      ensures Valid()
      ensures State() == DisconnectW(old(State()), id, now)
    {
      ghost var w0 := State();
      registry.Unregister(id, now);
      if id in droneConnections.items {
        droneConnections := droneConnections.Remove(id);
      } else if id in applicationConnections.items {
        applicationConnections := applicationConnections.Remove(id);
      }
      if id in connectionInfo.items {
        connectionInfo := connectionInfo.Remove(id);
      }
      if id in droneAlerts.items {
        droneAlerts := droneAlerts.Remove(id);
      }
      assert State() == DisconnectW(w0, id, now);
      DisconnectKeepsValid(w0, id, now);
    }

    /** `send_personal_message(client_id, message)` */
    method SendPersonalMessage(id: string, msg: Value, now: string)
      requires Valid()
      modifies this, registry
      ensures Valid()
      ensures State() == SendPersonalW(old(State()), dead, id, msg, now)
    {
      ghost var w0 := State();
      var socket: Option<Socket> := None;
      if id in droneConnections.items {
        socket := Some(droneConnections.items[id]);
      } else if id in applicationConnections.items {
        socket := Some(applicationConnections.items[id]);
      }
      if socket.Some? {
        var serialized := SerializeDatetime(msg);
        if socket.value in dead {
          Disconnect(id, now);
        } else {
          outbox := outbox + [Sent(id, socket.value, serialized)];
          assert State() == SendPersonalW(w0, dead, id, msg, now);
        }
      }
    }

    /** `broadcast_to_applications(message)` */
    method BroadcastToApplications(msg: Value, now: string)
      requires Valid()
      modifies this, registry
      ensures Valid()
      ensures State() == BroadcastW(old(State()), dead, Applications, msg, now)
    {
      Broadcast(Applications, msg, now);
    }

    /** `broadcast_to_drones(message)` */
    method BroadcastToDrones(msg: Value, now: string)
      requires Valid()
      modifies this, registry
      ensures Valid()
      ensures State() == BroadcastW(old(State()), dead, Drones, msg, now)
    {
      Broadcast(Drones, msg, now);
    }

    /** The two broadcasts: send to every member, then disconnect the members whose send failed. */
    method Broadcast(role: Role, msg: Value, now: string)
      requires Valid()
      modifies this, registry
      ensures Valid()
      ensures State() == BroadcastW(old(State()), dead, role, msg, now)
    {
      var members := if role == Drones then droneConnections else applicationConnections;
      if members.Len() == 0 {
        return;
      }
      ghost var w0 := State();
      var sends, failed := SendAll(members.Entries(), dead, SerializeDatetime(msg));
      outbox := outbox + sends;
      assert State() == w0.(outbox := w0.outbox + Deliveries(members.Entries(), dead, SerializeDatetime(msg)));
      DisconnectEach(failed, now);
    }

    /** The second loop of a broadcast: `disconnect` each id in turn. */
    method DisconnectEach(ids: seq<string>, now: string)
      requires Valid()
      modifies this, registry
      ensures Valid()
      ensures State() == DisconnectAllW(old(State()), ids, now)
    {
      ghost var w0 := State();
      var j := 0;
      while j < |ids|
        invariant 0 <= j <= |ids|
        invariant Valid()
        invariant State() == DisconnectAllW(w0, ids[..j], now)
      {
        Disconnect(ids[j], now);
        assert ids[..j + 1][..j] == ids[..j];
        assert State() == DisconnectAllW(w0, ids[..j + 1], now);
        j := j + 1;
      }
      assert ids[..j] == ids;
    }

    /** `send_to_drone(drone_id, message)` */
    method SendToDrone(droneId: string, msg: Value, now: string)
      requires Valid()
      modifies this, registry
      ensures Valid()
      ensures State() == SendToDroneW(old(State()), dead, droneId, msg, now)
    {
      if droneId in droneConnections.items {
        SendPersonalMessage(droneId, msg, now);
      }
    }

    /** `handle_alert_from_drone(drone_id, alert_data)` */
    method HandleAlertFromDrone(droneId: string, data: Value, now: string)
      requires Valid()
      modifies this, registry
      ensures Valid()
      ensures State() == AlertW(old(State()), dead, droneId, data, now)
    {
      ghost var w0 := State();
      var classified := ClassifyAlert(data);
      if classified.None? {
        return;
      }
      var id := nextId;
      alerts := alerts + [Doc(id, classified.value.record)];
      nextId := nextId + 1;
      droneAlerts := droneAlerts.Put(droneId, id);
      assert State() == Logged(w0, droneId, classified.value.record);
      LoggedKeepsValid(w0, droneId, classified.value.record);
      BroadcastToApplications(AlertAnnouncement(classified.value.kind, id, classified.value.record, now), now);
    }

    /** `handle_alert_image_from_drone(drone_id, alert_image_data)` */
    method HandleAlertImageFromDrone(droneId: string, data: Value, now: string)
      requires Valid() && WellFormed(data)
      modifies this, registry
      ensures Valid()
      ensures State() == ImageFromDroneW(old(State()), dead, droneId, data, now)
    {
      if !data.Object? {
        return;
      }
      StoreImage(data.fields);
      var msg := ImageAnnouncement(data, now);
      BroadcastToApplications(msg, now);
      Relay(droneId, droneConnections.keys, msg, now);
    }

    /** The store step of the drone image handler: merge into the first image of the same name, or insert. */
    method StoreImage(fields: Fields)
      requires Valid() && fields.Valid()
      modifies this
      ensures Valid()
      ensures State() == StoreDroneImage(old(State()), fields)
    {
      ghost var w0 := State();
      var name := fields.Get("name");
      var found := if name.Some? && Truthy(name.value) then FindByName(alertImages, name.value) else None;
      if found.Some? {
        var k := found.value;
        alertImages := alertImages[k := Doc(alertImages[k].id, Update(alertImages[k].fields, fields))];
      } else {
        alertImages := alertImages + [Doc(nextId, fields)];
        nextId := nextId + 1;
      }
      assert State() == StoreDroneImage(w0, fields);
      StoreDroneImageKeepsValid(w0, fields);
    }

    /** The relay loop of the drone image handler, over a snapshot of the drone ids. */
    method Relay(sender: string, ids: seq<string>, msg: Value, now: string)
      requires Valid()
      modifies this, registry
      ensures Valid()
      ensures State() == RelayW(old(State()), dead, sender, ids, msg, now)
    {
      ghost var w0 := State();
      var i := 0;
      while i < |ids|
        invariant 0 <= i <= |ids|
        invariant Valid()
        invariant State() == RelayW(w0, dead, sender, ids[..i], msg, now)
      {
        assert ids[..i + 1][..i] == ids[..i];
        if ids[i] != sender {
          SendPersonalMessage(ids[i], msg, now);
        }
        i := i + 1;
      }
      assert ids[..i] == ids;
    }

    /** `handle_alert_image_from_application(app_id, alert_image_data)` */
    method HandleAlertImageFromApplication(appId: string, data: Value, now: string)
      requires Valid()
      modifies this, registry
      ensures Valid()
      ensures State() == ImageFromApplicationW(old(State()), dead, appId, data, now)
    {
      if !data.Object? {
        return;
      }
      ghost var w0 := State();
      alertImages := alertImages + [Doc(nextId, data.fields)];
      nextId := nextId + 1;
      assert State() == InsertImage(w0, data.fields);
      InsertImageKeepsValid(w0, data.fields);
      BroadcastToDrones(ImageAnnouncement(data, now), now);
    }

    /** `handle_websocket_message(client_id, message_data)` */
    method HandleWebsocketMessage(id: string, message: Value, now: string)
      requires Valid() && WellFormed(message)
      modifies this, registry
      ensures Valid()
      ensures State() == DispatchW(old(State()), dead, id, message, now)
    {
      if !message.Object? {
        return;
      }
      var mtype := message.fields.Get("type");
      var record := connectionInfo.Get(id);
      if record.None? || record.value.clientType == "" {
        return;
      }
      var clientType := record.value.clientType;
      var data := Payload(message.fields);
      assert WellFormed(data) by {
        if "data" in message.fields.items {
          assert message.fields.Get("data") == Some(message.fields.items["data"]);
        }
      }
      if mtype == Some(Str("alert")) {
        if clientType == "drone" {
          HandleAlertFromDrone(id, data, now);
        }
      } else if mtype == Some(Str("alert_image")) {
        if clientType == "drone" {
          HandleAlertImageFromDrone(id, data, now);
        } else if clientType == "application" {
          HandleAlertImageFromApplication(id, data, now);
        }
      } else if mtype == Some(Str("ping")) {
        SendPersonalMessage(id, Pong(now), now);
      }
    }

    /** `get_connection_stats()` */
    function GetConnectionStats(): (r: ConnectionStats)
      reads this, registry
      requires Valid()
      ensures r.totalConnections == connectionInfo.Len() && r.activeAlerts == droneAlerts.Len()
      ensures r.droneConnections == droneConnections.Len() && r.applicationConnections == applicationConnections.Len()
      ensures r.totalConnections <= r.droneConnections + r.applicationConnections
    {
      ConnectionsBounded(State());
      ConnectionStats(connectionInfo.Len(), droneConnections.Len(), applicationConnections.Len(), droneAlerts.Len())
    }
  }
}
