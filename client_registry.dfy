/**
  The client registry: the catalog of every drone and application the hub
  has seen (`clients`), the subset currently online (`online_clients`),
  and the operations that register, unregister, update, authorize, remove
  and import clients, with the queries over the catalog.
 */
module Registry {
  import opened Wrappers
  import opened Dicts
  import opened Json

  /** `ClientInfo`: what the catalog records about one client. */
  datatype ClientInfo = ClientInfo(
    clientId: string,
    clientType: string,                   // "drone" or "application"
    name: Option<string>,
    description: Option<string>,
    capabilities: seq<string>,
    location: Option<Dict<string, real>>,
    status: string,                       // "online", "offline" or "maintenance"
    firstConnected: string,
    lastConnected: string,
    totalConnections: int,
    isAuthorized: bool,
    metadata: Fields)

  /**
    Keyword arguments passed as `**kwargs` / `**updates`: `Some(v)` for each
    attribute of ClientInfo that is given, and the names of the given keys
    that are not attributes of ClientInfo at all.
   */
  datatype ClientUpdate = ClientUpdate(
    clientId: Option<string>,
    clientType: Option<string>,
    name: Option<Option<string>>,
    description: Option<Option<string>>,
    capabilities: Option<seq<string>>,
    location: Option<Option<Dict<string, real>>>,
    status: Option<string>,
    firstConnected: Option<string>,
    lastConnected: Option<string>,
    totalConnections: Option<int>,
    isAuthorized: Option<bool>,
    metadata: Option<Fields>,
    unknown: set<string>)

  /** No keyword arguments at all. */
  const NoUpdate: ClientUpdate :=
    ClientUpdate(None, None, None, None, None, None, None, None, None, None, None, None, {})

  /** The attributes of ClientInfo, by name. */
  datatype Attribute =
    | ClientIdAttr | ClientTypeAttr | NameAttr | DescriptionAttr | CapabilitiesAttr | LocationAttr
    | StatusAttr | FirstConnectedAttr | LastConnectedAttr | TotalConnectionsAttr | IsAuthorizedAttr | MetadataAttr

  /** The attributes an update names. */
  function Supplied(u: ClientUpdate): set<Attribute> {
    (if u.clientId.Some? then {ClientIdAttr} else {}) +
    (if u.clientType.Some? then {ClientTypeAttr} else {}) +
    (if u.name.Some? then {NameAttr} else {}) +
    (if u.description.Some? then {DescriptionAttr} else {}) +
    (if u.capabilities.Some? then {CapabilitiesAttr} else {}) +
    (if u.location.Some? then {LocationAttr} else {}) +
    (if u.status.Some? then {StatusAttr} else {}) +
    (if u.firstConnected.Some? then {FirstConnectedAttr} else {}) +
    (if u.lastConnected.Some? then {LastConnectedAttr} else {}) +
    (if u.totalConnections.Some? then {TotalConnectionsAttr} else {}) +
    (if u.isAuthorized.Some? then {IsAuthorizedAttr} else {}) +
    (if u.metadata.Some? then {MetadataAttr} else {})
  }

  /** The attributes on which two records differ. */
  function Differing(a: ClientInfo, b: ClientInfo): set<Attribute> {
    (if a.clientId != b.clientId then {ClientIdAttr} else {}) +
    (if a.clientType != b.clientType then {ClientTypeAttr} else {}) +
    (if a.name != b.name then {NameAttr} else {}) +
    (if a.description != b.description then {DescriptionAttr} else {}) +
    (if a.capabilities != b.capabilities then {CapabilitiesAttr} else {}) +
    (if a.location != b.location then {LocationAttr} else {}) +
    (if a.status != b.status then {StatusAttr} else {}) +
    (if a.firstConnected != b.firstConnected then {FirstConnectedAttr} else {}) +
    (if a.lastConnected != b.lastConnected then {LastConnectedAttr} else {}) +
    (if a.totalConnections != b.totalConnections then {TotalConnectionsAttr} else {}) +
    (if a.isAuthorized != b.isAuthorized then {IsAuthorizedAttr} else {}) +
    (if a.metadata != b.metadata then {MetadataAttr} else {})
  }

  /** `for key, value in updates.items(): if hasattr(info, key): setattr(info, key, value)` */
  function ApplyUpdate(info: ClientInfo, u: ClientUpdate): ClientInfo {
    ClientInfo(
      u.clientId.GetOr(info.clientId),
      u.clientType.GetOr(info.clientType),
      u.name.GetOr(info.name),
      u.description.GetOr(info.description),
      u.capabilities.GetOr(info.capabilities),
      u.location.GetOr(info.location),
      u.status.GetOr(info.status),
      u.firstConnected.GetOr(info.firstConnected),
      u.lastConnected.GetOr(info.lastConnected),
      u.totalConnections.GetOr(info.totalConnections),
      u.isAuthorized.GetOr(info.isAuthorized),
      u.metadata.GetOr(info.metadata))
  }

  /** Only the attributes an update names can change, and applying it again changes nothing more. */
  lemma ApplyUpdateTouchesOnlySupplied(info: ClientInfo, u: ClientUpdate)
    ensures Differing(info, ApplyUpdate(info, u)) <= Supplied(u)
    ensures ApplyUpdate(ApplyUpdate(info, u), u) == ApplyUpdate(info, u)
    ensures u.unknown == {} || ApplyUpdate(info, u) == ApplyUpdate(info, u.(unknown := {}))
  {
  }

  /** The display name a new client gets when none is given: `f"{client_type.title()} {client_id}"`. */
  function DefaultName(clientType: string, clientId: string): string {
    Title(clientType) + " " + clientId
  }

  /** The capabilities a new client gets when none are given. */
  function DefaultCapabilities(clientType: string): seq<string> {
    if clientType == "drone" then ["alerts", "imaging", "navigation"]
    else if clientType == "application" then ["monitoring", "analysis", "response"]
    else []
  }

  /** Why a call raises TypeError over its keyword arguments. */
  datatype KeywordError =
    | MultipleValues      // a keyword naming a parameter that already has a value
    | UnexpectedKeyword   // a keyword that is not an attribute of ClientInfo

  /** A keyword naming a parameter of `register_client(self, client_id, client_type, **kwargs)`: the call raises before its body runs. */
  predicate ClashesWithRegister(u: ClientUpdate) {
    u.clientId.Some? || u.clientType.Some? || "self" in u.unknown
  }

  /** A keyword naming a parameter of `update_client(self, client_id, **updates)`. */
  predicate ClashesWithUpdate(u: ClientUpdate) {
    u.clientId.Some? || "self" in u.unknown
  }

  /** The record `register_client` creates for an id the catalog does not hold. */
  function NewClient(clientId: string, clientType: string, u: ClientUpdate, now: string): Result<ClientInfo, KeywordError> {
    if || u.clientId.Some? || u.clientType.Some? || u.firstConnected.Some?
       || u.lastConnected.Some? || u.totalConnections.Some? || u.status.Some? then
      Err(MultipleValues)
    else if u.unknown != {} then
      Err(UnexpectedKeyword)
    else
      var name := u.name.GetOr(None);
      var capabilities := u.capabilities.GetOr([]);
      Ok(ClientInfo(
        clientId, clientType,
        if name == None || name == Some("") then Some(DefaultName(clientType, clientId)) else name,
        u.description.GetOr(None),
        if capabilities == [] then DefaultCapabilities(clientType) else capabilities,
        u.location.GetOr(None),
        "online", now, now, 1,
        u.isAuthorized.GetOr(true),
        u.metadata.GetOr(Empty())))
  }

  /** A known client connecting again: stamp, count, and mark online. */
  function Reconnected(info: ClientInfo, now: string): ClientInfo {
    info.(lastConnected := now, totalConnections := info.totalConnections + 1, status := "online")
  }

  /** The record `register_client` returns. */
  function Registered(catalog: Dict<string, ClientInfo>, clientId: string, clientType: string, u: ClientUpdate, now: string): Result<ClientInfo, KeywordError> {
    if ClashesWithRegister(u) then Err(MultipleValues)
    else if clientId in catalog.items then Ok(ApplyUpdate(Reconnected(catalog.items[clientId], now), u))
    else NewClient(clientId, clientType, u, now)
  }

  /**
    Registering a known id raises exactly for a keyword naming a parameter;
    otherwise it counts one more connection, marks the client online now and
    keeps its first connection, unless a keyword sets one of these itself.
   */
  lemma RegisterKnownClient(catalog: Dict<string, ClientInfo>, clientId: string, clientType: string, u: ClientUpdate, now: string)
    requires clientId in catalog.items
    ensures var r := Registered(catalog, clientId, clientType, u, now);
      r.Ok? <==> u.clientId == None && u.clientType == None && "self" !in u.unknown
    ensures var r := Registered(catalog, clientId, clientType, u, now);
      r.Ok? ==>
        && r.value.clientId == catalog.items[clientId].clientId
        && r.value.clientType == catalog.items[clientId].clientType
        && r.value.totalConnections == u.totalConnections.GetOr(catalog.items[clientId].totalConnections + 1)
        && r.value.status == u.status.GetOr("online")
        && r.value.lastConnected == u.lastConnected.GetOr(now)
        && r.value.firstConnected == u.firstConnected.GetOr(catalog.items[clientId].firstConnected)
        && Registered(catalog, clientId, clientType, u.(unknown := {}), now) == r
  {
  }

  /** A new id gets one connection, online status, equal first and last connection stamps, and the role defaults. */
  lemma RegisterNewClient(catalog: Dict<string, ClientInfo>, clientId: string, clientType: string, u: ClientUpdate, now: string)
    requires clientId !in catalog.items
    ensures var r := Registered(catalog, clientId, clientType, u, now);
      r.Ok? <==> (Supplied(u) * {ClientIdAttr, ClientTypeAttr, StatusAttr, FirstConnectedAttr, LastConnectedAttr, TotalConnectionsAttr} == {} && u.unknown == {})
    ensures var r := Registered(catalog, clientId, clientType, u, now);
      r.Ok? ==>
        && r.value.clientId == clientId && r.value.clientType == clientType
        && r.value.totalConnections == 1 && r.value.status == "online"
        && r.value.firstConnected == now == r.value.lastConnected
        && (u.name.GetOr(None) in {None, Some("")} ==> r.value.name == Some(DefaultName(clientType, clientId)))
        && (u.capabilities.GetOr([]) == [] && clientType == "drone" ==> r.value.capabilities == ["alerts", "imaging", "navigation"])
        && (u.capabilities.GetOr([]) == [] && clientType == "application" ==> r.value.capabilities == ["monitoring", "analysis", "response"])
        && (u.isAuthorized == None ==> r.value.isAuthorized)
  {
  }

  /** `client_type.title()`, for ASCII letters; every other character counts as uncased. */
  function Title(s: string): (r: string)
    ensures |r| == |s|
  {
    TitleAfter(s, false)
  }

  /** Each letter is upper-cased after an uncased character and lower-cased after a letter. */
  function TitleAfter(s: string, afterLetter: bool): (r: string)
    ensures |r| == |s|
    ensures forall i :: 0 <= i < |s| && !IsLetter(s[i]) ==> r[i] == s[i]
    ensures forall i :: 0 <= i < |s| ==> IsLetter(r[i]) == IsLetter(s[i])
  {
    if |s| == 0 then ""
    else
      var c := s[0];
      var c' := if !IsLetter(c) then c else SetCase(c, !afterLetter);
      [c'] + TitleAfter(s[1..], IsLetter(c))
  }

  /**
    The case `str.title` gives a letter: upper case when it starts the string
    (and the string is not continuing a word) or follows an uncased character,
    lower case when it follows a letter.
   */
  lemma {:induction false} TitleAfterCase(s: string, afterLetter: bool, i: nat)
    requires i < |s| && IsLetter(s[i])
    ensures var r := TitleAfter(s, afterLetter);
      && (('A' <= r[i] <= 'Z') <==> (if i == 0 then !afterLetter else !IsLetter(s[i - 1])))
      && (('a' <= r[i] <= 'z') <==> (if i == 0 then afterLetter else IsLetter(s[i - 1])))
  {
    if i > 0 {
      TitleAfterCase(s[1..], IsLetter(s[0]), i - 1);
      assert s[1..][i - 1] == s[i];
      if i > 1 {
        assert s[1..][i - 2] == s[i - 1];
      }
    }
  }

  /** `str.title` on a whole string: a letter is upper case exactly when it is first or follows an uncased character. */
  lemma TitleCase(s: string, i: nat)
    requires i < |s| && IsLetter(s[i])
    ensures ('A' <= Title(s)[i] <= 'Z') <==> (i == 0 || !IsLetter(s[i - 1]))
    ensures ('a' <= Title(s)[i] <= 'z') <==> (i > 0 && IsLetter(s[i - 1]))
  {
    TitleAfterCase(s, false, i);
  }

  /** `is_client_authorized` over a catalog: the id is known and its record authorized. */
  predicate IsAuthorized(clients: Dict<string, ClientInfo>, id: string) {
    id in clients.items && clients.items[id].isAuthorized
  }

  predicate IsLetter(c: char) {
    'a' <= c <= 'z' || 'A' <= c <= 'Z'
  }

  /** A letter in upper case (`upper`) or in lower case. */
  function SetCase(c: char, upper: bool): (r: char)
    requires IsLetter(c)
    ensures upper ==> 'A' <= r <= 'Z'
    ensures !upper ==> 'a' <= r <= 'z'
  {
    if upper && 'a' <= c <= 'z' then (c as int - 'a' as int + 'A' as int) as char
    else if !upper && 'A' <= c <= 'Z' then (c as int - 'A' as int + 'a' as int) as char
    else c
  }

  /** The two roles get the names "Drone <id>" and "Application <id>". */
  lemma DefaultNamesOfRoles(clientId: string)
    ensures DefaultName("drone", clientId) == "Drone " + clientId
    ensures DefaultName("application", clientId) == "Application " + clientId
  {
    RoleTitles();
  }

  /** `"drone".title()` and `"application".title()`. */
  lemma RoleTitles()
    ensures Title("drone") == "Drone" && Title("application") == "Application"
  {
    CapitalizedWord('d', "rone", "drone", "Drone");
    CapitalizedWord('a', "pplication", "application", "Application");
  }

  /** A lower-case word comes out with its first letter upper-cased. */
  lemma CapitalizedWord(c: char, rest: string, word: string, titled: string)
    requires 'a' <= c <= 'z'
    requires forall i :: 0 <= i < |rest| ==> 'a' <= rest[i] <= 'z'
    requires word == [c] + rest && titled == [SetCase(c, true)] + rest
    ensures Title(word) == titled
  {
    LowercaseAfterLetter(rest);
    assert word[1..] == rest;
  }

  /** A run of lower-case letters after a letter is left as it is. */
  lemma {:induction false} LowercaseAfterLetter(s: string)
    requires forall i :: 0 <= i < |s| ==> 'a' <= s[i] <= 'z'
    ensures TitleAfter(s, true) == s
  {
    if |s| != 0 {
      LowercaseAfterLetter(s[1..]);
    }
  }

  /** `unregister_client` on the catalog: a known id goes offline now; an unknown id changes nothing. */
  function WentOffline(catalog: Dict<string, ClientInfo>, clientId: string, now: string): Dict<string, ClientInfo> {
    if clientId in catalog.items then
      catalog.Put(clientId, catalog.items[clientId].(status := "offline", lastConnected := now))
    else catalog
  }

  /** Unregistering marks a known client offline and stamps it, and touches no other id. */
  lemma WentOfflineEffect(catalog: Dict<string, ClientInfo>, clientId: string, now: string)
    ensures var c := WentOffline(catalog, clientId, now);
      && (forall id :: id in c.items <==> id in catalog.items)
      && (forall id :: id in c.items && id != clientId ==> c.items[id] == catalog.items[id])
      && (clientId in c.items ==> c.items[clientId].status == "offline" && c.items[clientId].lastConnected == now)
      && (clientId in c.items ==> Differing(catalog.items[clientId], c.items[clientId]) <= {StatusAttr, LastConnectedAttr})
      && (clientId !in catalog.items ==> c == catalog)
    ensures WentOffline(WentOffline(catalog, clientId, now), clientId, now) == WentOffline(catalog, clientId, now)
  {
  }

  /**
    What `online_clients[id]` holds. `Shared`: the very object stored in
    `clients[id]`, so every in-place change to the catalog entry shows
    through. `Detached(info)`: a former catalog object that `import_clients`
    replaced in the catalog but not in `online_clients`.
   */
  datatype OnlineEntry = Shared | Detached(info: ClientInfo)

  /** `import_clients` replacing the catalog objects of `ids`: online entries sharing them keep the old objects. */
  function DetachEach(online: Dict<string, OnlineEntry>, catalog: Dict<string, ClientInfo>, ids: seq<string>): (r: Dict<string, OnlineEntry>)
    requires forall id :: id in online.items ==> id in catalog.items
    ensures r.keys == online.keys && r.items.Keys == online.items.Keys
  {
    Dict(online.keys, map id | id in online.items ::
      if id in ids && online.items[id] == Shared then Detached(catalog.items[id]) else online.items[id])
  }

  /** The records of an import that were parsed, by id. */
  function Parsed(records: Dict<string, Option<ClientInfo>>): map<string, ClientInfo> {
    map id | id in records.items && records.items[id].Some? :: records.items[id].value
  }

  /** How many records, from the first, build a ClientInfo before the first one that does not. */
  function ParsedPrefix(ids: seq<string>, records: map<string, Option<ClientInfo>>): (n: nat)
    requires forall id :: id in ids ==> id in records
    ensures n <= |ids|
    ensures forall j :: 0 <= j < n ==> records[ids[j]].Some?
    ensures n < |ids| ==> records[ids[n]].None?
  {
    if |ids| == 0 || records[ids[0]].None? then 0 else 1 + ParsedPrefix(ids[1..], records)
  }

  /** `get_stats()` */
  datatype Stats = Stats(
    totalClients: nat,
    totalDrones: nat,
    totalApplications: nat,
    onlineClients: nat,
    onlineDrones: nat,
    onlineApplications: nat,
    authorizedClients: nat,
    registryFile: string,
    lastUpdated: string)

  /** `c.client_type == clientType`, as a filter. */
  function HasType(clientType: string): ClientInfo -> bool {
    (c: ClientInfo) => c.clientType == clientType
  }

  /** `c.is_authorized`, as a filter. */
  function Authorized(c: ClientInfo): bool {
    c.isAuthorized
  }

  /** Two filters on disjoint conditions keep no more elements, together, than the sequence has. */
  lemma {:induction false} SelectDisjoint<T(!new)>(s: seq<T>, p: T -> bool, q: T -> bool)
    requires forall x :: !(p(x) && q(x))
    ensures |Select(s, p)| + |Select(s, q)| <= |s|
  {
    if |s| != 0 {
      SelectDisjoint(s[1..], p, q);
    }
  }

  class ClientRegistry {
    const registryFile: string
    /** `self.clients`: the catalog, by client id. */
    var clients: Dict<string, ClientInfo>
    /** `self.online_clients`, by client id. */
    var online: Dict<string, OnlineEntry>
    /** The catalog as the registry file last held it (`None`: missing or unreadable). */
    ghost var persisted: Option<Dict<string, ClientInfo>>

    /** Both maps are dicts and every online id is in the catalog. */
    ghost predicate Valid()
      reads this
    {
      && clients.Valid()
      && online.Valid()
      && (forall id :: id in online.items ==> id in clients.items)
    }

    /** `ClientRegistry(registry_file)`, given what `load_registry` read (`None`: nothing usable). */
    constructor (registryFile: string, stored: Option<Dict<string, ClientInfo>>)
      requires stored.Some? ==> stored.value.Valid()
      ensures Valid()
      ensures this.registryFile == registryFile
      ensures clients == stored.GetOr(Empty()) && online == Empty() && persisted == stored
    {
      this.registryFile := registryFile;
      clients := stored.GetOr(Empty());
      online := Empty();
      persisted := stored;
    }

    /** The record `online_clients[id]` holds. */
    function OnlineRecord(clientId: string): ClientInfo
      reads this
      requires Valid() && clientId in online.items
    {
      match online.items[clientId]
      case Shared => clients.items[clientId]
      case Detached(info) => info
    }

    /** `register_client(client_id, client_type, **kwargs)` */
    method Register(clientId: string, clientType: string, kwargs: ClientUpdate, now: string) returns (r: Result<ClientInfo, KeywordError>)
      requires Valid()
      modifies this
      ensures Valid()
      ensures r == Registered(old(clients), clientId, clientType, kwargs, now)
      ensures r.Ok? ==> clients == old(clients).Put(clientId, r.value) && online == old(online).Put(clientId, Shared)
      ensures r.Ok? ==> persisted == Some(clients)
      ensures r.Err? ==> clients == old(clients) && online == old(online) && persisted == old(persisted)
    {
      r := Registered(clients, clientId, clientType, kwargs, now);
      if r.Err? {
        return;
      }
      clients := clients.Put(clientId, r.value);
      online := online.Put(clientId, Shared);
      persisted := Some(clients);
    }

    /** `unregister_client(client_id)` */
    method Unregister(clientId: string, now: string)
      requires Valid()
      modifies this
      ensures Valid()
      ensures clients == WentOffline(old(clients), clientId, now)
      ensures online == old(online).Remove(clientId)
      ensures persisted == Some(clients)
    {
      clients := WentOffline(clients, clientId, now);
      online := online.Remove(clientId);
      persisted := Some(clients);
    }

    /** `get_client(client_id)` */
    function GetClient(clientId: string): (r: Option<ClientInfo>)
      reads this
      ensures r.Some? <==> clientId in clients.items
      ensures r.Some? ==> r.value == clients.items[clientId]
    {
      clients.Get(clientId)
    }

    /** `get_clients_by_type(client_type)`: the catalog's records of that type, in catalog order. */
    function GetClientsByType(clientType: string): (r: seq<ClientInfo>)
      reads this
      requires Valid()
      ensures forall c :: c in r ==> c.clientType == clientType
      ensures forall c :: multiset(r)[c] == if c.clientType == clientType then multiset(clients.Values())[c] else 0
      ensures SubSeq(r, clients.Values())
    {
      Select(clients.Values(), HasType(clientType))
    }

    /** `get_online_clients()`: a copy of `online_clients`. */
    function GetOnlineClients(): (r: Dict<string, ClientInfo>)
      reads this
      requires Valid()
      ensures r.Valid() && r.keys == online.keys
      ensures forall id :: id in r.items <==> id in online.items
      ensures forall id :: id in r.items ==> r.items[id] == OnlineRecord(id)
    {
      Dict(online.keys, map id | id in online.items :: OnlineRecord(id))
    }

    /** `get_online_clients_by_type(client_type)`: the online records of that type, in online order. */
    function GetOnlineClientsByType(clientType: string): (r: seq<ClientInfo>)
      reads this
      requires Valid()
      ensures forall c :: c in r ==> c.clientType == clientType
      ensures forall c :: multiset(r)[c] == if c.clientType == clientType then multiset(GetOnlineClients().Values())[c] else 0
      ensures SubSeq(r, GetOnlineClients().Values())
    {
      Select(GetOnlineClients().Values(), HasType(clientType))
    }

    /** `update_client(client_id, **updates)`: whether the id was found, or the TypeError of a keyword naming a parameter. */
    method UpdateClient(clientId: string, updates: ClientUpdate) returns (r: Result<bool, KeywordError>)
      requires Valid()
      modifies this
      ensures Valid()
      ensures r.Err? <==> ClashesWithUpdate(updates)
      ensures r.Err? ==> r.error == MultipleValues && clients == old(clients) && persisted == old(persisted)
      ensures r.Ok? ==> r.value == (clientId in old(clients.items))
      ensures r.Ok? ==>
        clients == if r.value then old(clients).Put(clientId, ApplyUpdate(old(clients.items[clientId]), updates)) else old(clients)
      ensures r.Ok? ==> persisted == if r.value then Some(clients) else old(persisted)
      ensures online == old(online)
    {
      if ClashesWithUpdate(updates) {
        return Err(MultipleValues);
      }
      if clientId !in clients.items {
        return Ok(false);
      }
      clients := clients.Put(clientId, ApplyUpdate(clients.items[clientId], updates));
      persisted := Some(clients);
      return Ok(true);
    }

    /** `authorize_client(client_id, authorized)` */
    method AuthorizeClient(clientId: string, authorized: bool)
      requires Valid()
      modifies this
      ensures Valid()
      ensures clientId in old(clients.items) ==>
        && clients == old(clients).Put(clientId, old(clients.items[clientId]).(isAuthorized := authorized))
        && persisted == Some(clients)
      ensures clientId !in old(clients.items) ==> clients == old(clients) && persisted == old(persisted)
      ensures online == old(online)
    {
      if clientId in clients.items {
        clients := clients.Put(clientId, clients.items[clientId].(isAuthorized := authorized));
        persisted := Some(clients);
      }
    }

    /** `remove_client(client_id)` */
    method RemoveClient(clientId: string) returns (removed: bool)
      requires Valid()
      modifies this
      ensures Valid()
      ensures removed == (clientId in old(clients.items))
      ensures clients == old(clients).Remove(clientId)
      ensures online == old(online).Remove(clientId)
      ensures persisted == if removed then Some(clients) else old(persisted)
    {
      removed := clientId in clients.items;
      clients := clients.Remove(clientId);
      online := online.Remove(clientId);
      if removed {
        persisted := Some(clients);
      }
    }

    /** `get_stats()`, stamped `now`. */
    function GetStats(now: string): (r: Stats)
      reads this
      requires Valid()
      ensures r.totalClients == clients.Len() && r.onlineClients == online.Len()
      ensures r.authorizedClients <= r.totalClients
      ensures r.totalDrones + r.totalApplications <= r.totalClients
      ensures r.onlineDrones + r.onlineApplications <= r.onlineClients <= r.totalClients
      ensures r.totalDrones == clients.Filter(HasType("drone")).Len()
      ensures r.totalApplications == clients.Filter(HasType("application")).Len()
      ensures r.authorizedClients == clients.Filter(Authorized).Len()
      ensures r.onlineDrones == GetOnlineClients().Filter(HasType("drone")).Len()
      ensures r.onlineApplications == GetOnlineClients().Filter(HasType("application")).Len()
    {
      var all := clients.Values();
      var onlineAll := GetOnlineClients().Values();
      SelectDisjoint(all, HasType("drone"), HasType("application"));
      SelectDisjoint(onlineAll, HasType("drone"), HasType("application"));
      LenMonotone(online, clients);
      SelectValuesCount(clients, HasType("drone"));
      SelectValuesCount(clients, HasType("application"));
      SelectValuesCount(clients, Authorized);
      SelectValuesCount(GetOnlineClients(), HasType("drone"));
      SelectValuesCount(GetOnlineClients(), HasType("application"));
      Stats(
        clients.Len(),
        |GetClientsByType("drone")|,
        |GetClientsByType("application")|,
        online.Len(),
        |GetOnlineClientsByType("drone")|,
        |GetOnlineClientsByType("application")|,
        |Select(all, Authorized)|,
        registryFile,
        now)
    }

    /**
      The merge step of `import_clients`, given the `"clients"` object the
      file held (`None`: the file could not be read). Each record replaces
      the catalog entry of its id; a record that does not build a ClientInfo
      stops the import with the earlier records kept, nothing saved, and 0
      returned.
     */
    method ImportClients(records: Option<Dict<string, Option<ClientInfo>>>) returns (count: nat)
      requires Valid()
      requires records.Some? ==> records.value.Valid()
      modifies this
      ensures Valid()
      ensures records.None? ==> count == 0 && clients == old(clients) && online == old(online) && persisted == old(persisted)
      ensures records.Some? ==>
        var recs := records.value;
        var n := ParsedPrefix(recs.keys, recs.items);
        && count == (if n == recs.Len() then n else 0)
        && clients == PutEach(old(clients), recs.keys[..n], Parsed(recs))
        && online == DetachEach(old(online), old(clients), recs.keys[..n])
        && persisted == (if n == recs.Len() then Some(clients) else old(persisted))
    {
      if records.None? {
        return 0;
      }
      var recs := records.value;
      var complete;
      ImportKeepsValid(clients, online, recs, ParsedPrefix(recs.keys, recs.items));
      clients, online, complete := MergeRecords(clients, online, recs);
      if !complete {
        return 0;
      }
      count := recs.Len();
      persisted := Some(clients);
    }
  }

  /**
    The loop of `import_clients` over the records, in file order: each record
    replaces the catalog entry of its id, until one does not build a ClientInfo
    (`complete` false, the records before it written).
   */
  method MergeRecords(catalog0: Dict<string, ClientInfo>, online0: Dict<string, OnlineEntry>, recs: Dict<string, Option<ClientInfo>>)
    returns (catalog: Dict<string, ClientInfo>, online: Dict<string, OnlineEntry>, complete: bool)
    requires recs.Valid()
    requires forall id :: id in online0.items ==> id in catalog0.items
    ensures var n := ParsedPrefix(recs.keys, recs.items);
      && complete == (n == |recs.keys|)
      && catalog == PutEach(catalog0, recs.keys[..n], Parsed(recs))
      && online == DetachEach(online0, catalog0, recs.keys[..n])
  {
    ghost var n := ParsedPrefix(recs.keys, recs.items);
    catalog, online := catalog0, online0;
    var i := 0;
    DetachNone(online0, catalog0, recs.keys[..0]);
    while i < |recs.keys| && recs.items[recs.keys[i]].Some?
      invariant 0 <= i <= n
      invariant catalog == PutEach(catalog0, recs.keys[..i], Parsed(recs))
      invariant online == DetachEach(online0, catalog0, recs.keys[..i])
    {
      assert i < n;
      catalog, online := MergeNext(catalog0, online0, recs, i, catalog, online);
      i := i + 1;
    }
    assert i == n by {
      if i < |recs.keys| {
        assert recs.items[recs.keys[i]].None?;
      }
    }
    complete := i == |recs.keys|;
  }

  /** One turn of the import loop: the `i`-th record, after the ones before it. */
  method MergeNext(catalog0: Dict<string, ClientInfo>, online0: Dict<string, OnlineEntry>, recs: Dict<string, Option<ClientInfo>>, i: nat,
                   catalog: Dict<string, ClientInfo>, online: Dict<string, OnlineEntry>)
    returns (catalog': Dict<string, ClientInfo>, online': Dict<string, OnlineEntry>)
    requires recs.Valid() && i < ParsedPrefix(recs.keys, recs.items)
    requires forall id :: id in online0.items ==> id in catalog0.items
    requires catalog == PutEach(catalog0, recs.keys[..i], Parsed(recs))
    requires online == DetachEach(online0, catalog0, recs.keys[..i])
    ensures catalog' == PutEach(catalog0, recs.keys[..i + 1], Parsed(recs))
    ensures online' == DetachEach(online0, catalog0, recs.keys[..i + 1])
  {
    var id := recs.keys[i];
    ImportStep(catalog0, online0, recs, i);
    catalog', online' := MergeRecord(catalog, online, id, recs.items[id].value);
  }

  /** `self.clients[client_id] = ClientInfo(**client_data)` for one record. */
  method MergeRecord(catalog0: Dict<string, ClientInfo>, online0: Dict<string, OnlineEntry>, id: string, info: ClientInfo)
    returns (catalog: Dict<string, ClientInfo>, online: Dict<string, OnlineEntry>)
    requires id in online0.items ==> id in catalog0.items
    ensures catalog == catalog0.Put(id, info)
    ensures online == if id in online0.items && online0.items[id] == Shared then online0.Put(id, Detached(catalog0.items[id])) else online0
  {
    online := online0;
    if id in online.items && online.items[id] == Shared {
      // the online entry keeps the object the catalog held until now
      online := online.Put(id, Detached(catalog0.items[id]));
    }
    catalog := catalog0.Put(id, info);
  }

  /** One more record of an import: the catalog takes it, and an online entry sharing the old object keeps that object. */
  lemma ImportStep(catalog: Dict<string, ClientInfo>, online: Dict<string, OnlineEntry>, recs: Dict<string, Option<ClientInfo>>, i: nat)
    requires recs.Valid() && i < ParsedPrefix(recs.keys, recs.items)
    requires forall id :: id in online.items ==> id in catalog.items
    ensures var id := recs.keys[i];
      var c := PutEach(catalog, recs.keys[..i], Parsed(recs));
      var o := DetachEach(online, catalog, recs.keys[..i]);
      && id in Parsed(recs)
      && PutEach(catalog, recs.keys[..i + 1], Parsed(recs)) == c.Put(id, recs.items[id].value)
      && (id in o.items ==> id in c.items && c.items[id] == catalog.items[id])
      && DetachEach(online, catalog, recs.keys[..i + 1])
         == if id in o.items && o.items[id] == Shared then o.Put(id, Detached(c.items[id])) else o
  {
    var id := recs.keys[i];
    var ks := recs.keys[..i];
    var m := Parsed(recs);
    assert recs.keys[..i + 1] == ks + [id];
    assert id !in ks;
    forall j | 0 <= j <= i ensures recs.keys[j] in m {
    }
    assert forall k :: k in ks ==> k in m;
    PutEachSnoc(catalog, ks, id, m);
    DetachSnoc(online, catalog, ks, id);
  }

  /** The catalog and the online dict stay dicts, and every online id stays in the catalog. */
  lemma ImportKeepsValid(catalog: Dict<string, ClientInfo>, online: Dict<string, OnlineEntry>, recs: Dict<string, Option<ClientInfo>>, i: nat)
    requires catalog.Valid() && online.Valid() && recs.Valid() && i <= |recs.keys|
    requires forall id :: id in online.items ==> id in catalog.items
    requires forall j :: 0 <= j < i ==> recs.items[recs.keys[j]].Some?
    ensures forall k :: k in recs.keys[..i] ==> k in Parsed(recs)
    ensures var c := PutEach(catalog, recs.keys[..i], Parsed(recs));
      var o := DetachEach(online, catalog, recs.keys[..i]);
      c.Valid() && o.Valid() && (forall id :: id in o.items ==> id in c.items)
  {
    forall k | k in recs.keys[..i] ensures k in Parsed(recs) {
      var j :| 0 <= j < i && recs.keys[..i][j] == k;
      assert recs.items[recs.keys[j]].Some?;
    }
  }

  lemma DetachNone(online: Dict<string, OnlineEntry>, catalog: Dict<string, ClientInfo>, ks: seq<string>)
    requires forall k :: k in online.items ==> k in catalog.items
    requires ks == []
    ensures DetachEach(online, catalog, ks) == online
  {
    assert DetachEach(online, catalog, ks).items == online.items;
  }

  lemma DetachSnoc(online: Dict<string, OnlineEntry>, catalog: Dict<string, ClientInfo>, ks: seq<string>, id: string)
    requires forall k :: k in online.items ==> k in catalog.items
    requires id !in ks
    ensures var o := DetachEach(online, catalog, ks);
      DetachEach(online, catalog, ks + [id])
      == if id in o.items && o.items[id] == Shared then o.Put(id, Detached(catalog.items[id])) else o
  {
    var o := DetachEach(online, catalog, ks);
    var o' := DetachEach(online, catalog, ks + [id]);
    if id in o.items && o.items[id] == Shared {
      assert o'.items == o.items[id := Detached(catalog.items[id])];
    } else {
      assert o'.items == o.items;
    }
  }

  /** `is_client_authorized(client_id)`: false for an id the catalog does not hold. */
  function IsClientAuthorized(registry: ClientRegistry, clientId: string): (r: bool)
    reads registry
    ensures r <==> IsAuthorized(registry.clients, clientId)
  {
    match registry.GetClient(clientId)
    case Some(info) => info.isAuthorized
    case None => false
  }

  /** Importing never drops a catalog entry and returns the number of records written when it completes. */
  lemma ImportKeepsCatalog(catalog: Dict<string, ClientInfo>, recs: Dict<string, Option<ClientInfo>>)
    requires catalog.Valid() && recs.Valid()
    ensures var n := ParsedPrefix(recs.keys, recs.items);
      var c := PutEach(catalog, recs.keys[..n], Parsed(recs));
      && c.Valid()
      && (forall id :: id in catalog.items ==> id in c.items)
      && (forall j :: 0 <= j < n ==> c.items[recs.keys[j]] == recs.items[recs.keys[j]].value)
      && (forall id :: id in c.items && id !in recs.keys[..n] ==> c.items[id] == catalog.items[id])
  {
    var n := ParsedPrefix(recs.keys, recs.items);
    forall j | 0 <= j < n ensures recs.keys[j] in recs.keys[..n] {
      assert recs.keys[..n][j] == recs.keys[j];
    }
  }
}
