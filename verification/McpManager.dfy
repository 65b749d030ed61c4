/** The MCP runtime manager's table of server connections
    (agent_gateway/internal/runtime/mcp/manager.go).  Each method below is one region under the
    manager's lock; McpProtocol interleaves them. */
module McpManager {
  import opened Text

  type Key = string
  type Client = nat
  type Tool = string

  datatype Phase = Disconnected | Connecting | Connected | Failed | Disabled | Closed

  datatype Config = Config(id: string, name: string, transport: string)

  datatype Status = Status(id: Key, name: string, phase: Phase, transport: string, toolCount: nat, lastError: string)

  datatype Connection = Connection(cfg: Config, client: Option<Client>, tools: seq<Tool>, status: Status)

  datatype Table = Table(closed: bool, servers: map<Key, Connection>, inflight: nat)

  const NO_SERVERS := Table(false, map[], 0)

  // ---------------------------------------------------------------- the lock regions as functions

  /** `ensureConnectionLocked`: the entry for `key`, created or renamed as needed. */
  function Ensured(servers: map<Key, Connection>, key: Key, cfg: Config): Connection {
    if key !in servers then
      Connection(cfg, None, [], Status(key, cfg.name, Disconnected, "", 0, ""))
    else if cfg.name != "" then
      servers[key].(cfg := cfg, status := servers[key].status.(name := cfg.name))
    else servers[key]
  }

  function SetConnecting(m: Table, key: Key, cfg: Config, transport: string): Table {
    if m.closed then m
    else
      var conn := Ensured(m.servers, key, cfg);
      m.(servers := m.servers[key := conn.(status := Status(key, cfg.name, Connecting, transport, 0, ""))])
  }

  function ReplaceConnected(m: Table, key: Key, cfg: Config, transport: string, client: Client, tools: seq<Tool>): Table {
    if m.closed then m
    else
      m.(servers := m.servers[key :=
        Connection(cfg, Some(client), tools, Status(key, cfg.name, Connected, transport, |tools|, ""))])
  }

  function RecordFailure(m: Table, key: Key, cfg: Config, error: string): Table {
    if m.closed then m
    else
      var conn := Ensured(m.servers, key, cfg);
      m.(servers := m.servers[key := conn.(status := conn.status.(id := key, name := cfg.name, phase := Failed,
                                                                  toolCount := |conn.tools|, lastError := error))])
  }

  function CloseServer(m: Table, key: Key, cfg: Config, phase: Phase, error: string): Table {
    if m.closed then m
    else
      var conn := Ensured(m.servers, key, cfg);
      m.(servers := m.servers[key := conn.(client := None, tools := [],
                                           status := conn.status.(phase := phase, toolCount := 0, lastError := error))])
  }

  function ClosedConnection(conn: Connection): Connection {
    conn.(client := None, tools := [], status := conn.status.(phase := Closed, toolCount := 0))
  }

  function CloseAll(m: Table): Table {
    if m.closed then m
    else m.(closed := true, servers := map k | k in m.servers :: ClosedConnection(m.servers[k]))
  }

  function InstalledClient(m: Table, key: Key): Option<Client> {
    if key in m.servers then m.servers[key].client else None
  }

  /** The clients of `keys`, in that order. */
  function ClientsOf(m: Table, keys: seq<Key>): seq<Client> {
    if keys == [] then []
    else
      ClientsOf(m, keys[..|keys| - 1]) +
      match InstalledClient(m, keys[|keys| - 1]) { case Some(c) => [c] case None => [] }
  }

  predicate IsEnumeration(keys: seq<Key>, all: set<Key>) {
    (forall i, j :: 0 <= i < j < |keys| ==> keys[i] != keys[j]) && (set k | k in keys) == all
  }

  lemma EnumerationGrows(keys: seq<Key>, all: set<Key>, k: Key)
    requires IsEnumeration(keys, all) && k !in all
    ensures IsEnumeration(keys + [k], all + {k})
  {
    assert forall x :: x in keys <==> x in all;
    assert forall x :: x in keys + [k] <==> x in all || x == k;
  }

  lemma EnumerationShrinks(keys: seq<Key>, all: set<Key>, todo: set<Key>, k: Key)
    requires IsEnumeration(keys, all - todo) && k in todo && todo <= all
    ensures IsEnumeration(keys + [k], all - (todo - {k}))
  {
    EnumerationGrows(keys, all - todo, k);
    assert all - (todo - {k}) == (all - todo) + {k};
  }

  lemma ClientsOfPush(m: Table, keys: seq<Key>, k: Key)
    ensures ClientsOf(m, keys + [k]) ==
            ClientsOf(m, keys) + match InstalledClient(m, k) { case Some(c) => [c] case None => [] }
  {
    assert (keys + [k])[..|keys|] == keys;
  }

  // ---------------------------------------------------------------- the manager object

  class Manager {
    var servers: map<Key, Connection>
    var inflight: nat
    var closed: bool

    function State(): Table
      reads this
    {
      Table(closed, servers, inflight)
    }

    constructor ()
      ensures State() == NO_SERVERS
    {
      servers, inflight, closed := map[], 0, false;
    }

    method EnsureConnection(key: Key, cfg: Config) returns (conn: Connection)
      modifies `servers
      ensures conn == Ensured(old(servers), key, cfg)
      ensures servers == old(servers)[key := conn]
    {
      if key in servers {
        conn := servers[key];
        if cfg.name != "" {
          conn := conn.(cfg := cfg, status := conn.status.(name := cfg.name));
        }
      } else {
        conn := Connection(cfg, None, [], Status(key, cfg.name, Disconnected, "", 0, ""));
      }
      servers := servers[key := conn];
    }

    method SetConnectingLocked(key: Key, cfg: Config, transport: string) returns (ok: bool)
      modifies `servers
      ensures State() == SetConnecting(old(State()), key, cfg, transport)
      ensures ok <==> !closed
    {
      if closed {
        return false;
      }
      var conn := EnsureConnection(key, cfg);
      conn := conn.(status := Status(key, cfg.name, Connecting, transport, 0, ""));
      servers := servers[key := conn];
      return true;
    }

    /** Installs a client and hands back the one it replaces; refuses once the manager is closed. */
    method ReplaceConnectedLocked(key: Key, cfg: Config, transport: string, client: Client, tools: seq<Tool>)
      returns (replaced: Option<Client>, ok: bool)
      modifies `servers
      ensures State() == ReplaceConnected(old(State()), key, cfg, transport, client, tools)
      ensures ok <==> !closed
      ensures replaced == if closed then None else InstalledClient(old(State()), key)
    {
      if closed {
        return None, false;
      }
      var conn := EnsureConnection(key, cfg);
      replaced := conn.client;
      var status := Status(key, cfg.name, Connected, transport, |tools|, "");
      servers := servers[key := Connection(cfg, Some(client), tools, status)];
      return replaced, true;
    }

    method RecordFailureLocked(key: Key, cfg: Config, error: string)
      modifies `servers
      ensures State() == RecordFailure(old(State()), key, cfg, error)
    {
      if closed {
        return;
      }
      var conn := EnsureConnection(key, cfg);
      var status := conn.status.(id := key, name := cfg.name, phase := Failed);
      status := status.(toolCount := |conn.tools|, lastError := error);
      servers := servers[key := conn.(status := status)];
    }

    /** Detaches a server's client, which the caller closes after the lock. */
    method CloseServerLocked(key: Key, cfg: Config, phase: Phase, error: string)
      returns (client: Option<Client>, ok: bool)
      modifies `servers
      ensures State() == CloseServer(old(State()), key, cfg, phase, error)
      ensures ok <==> !closed
      ensures client == if closed then None else InstalledClient(old(State()), key)
    {
      if closed {
        return None, false;
      }
      var conn := EnsureConnection(key, cfg);
      client := conn.client;
      conn := conn.(client := None, tools := []);
      conn := conn.(status := conn.status.(phase := phase, toolCount := 0, lastError := error));
      servers := servers[key := conn];
      return client, true;
    }

    /** Detaches one server's client and marks the server closed. */
    method CloseConnection(k: Key) returns (client: Option<Client>)
      requires k in servers
      modifies `servers
      ensures client == old(servers)[k].client
      ensures servers == old(servers)[k := ClosedConnection(old(servers)[k])]
    {
      var conn := servers[k];
      client := conn.client;
      conn := conn.(client := None, tools := []);
      conn := conn.(status := conn.status.(phase := Closed, toolCount := 0));
      servers := servers[k := conn];
    }

    /** Manager.Close under the lock: every client is collected, in the order the map is ranged over. */
    method CloseLocked() returns (connections: seq<Client>, ghost order: seq<Key>)
      modifies `servers, `closed
      ensures State() == CloseAll(old(State()))
      ensures old(closed) ==> connections == []
      ensures !old(closed) ==>
        IsEnumeration(order, old(servers).Keys) && connections == ClientsOf(old(State()), order)
    {
      connections, order := [], [];
      if closed {
        return;
      }
      closed := true;
      ghost var before := old(State());
      var todo := servers.Keys;
      while todo != {}
        invariant closed && servers.Keys == before.servers.Keys && todo <= servers.Keys
        invariant forall k :: k in servers.Keys ==>
          servers[k] == if k in todo then before.servers[k] else ClosedConnection(before.servers[k])
        invariant IsEnumeration(order, before.servers.Keys - todo)
        invariant connections == ClientsOf(before, order)
      {
        var k :| k in todo;
        ClientsOfPush(before, order, k);
        EnumerationShrinks(order, before.servers.Keys, todo, k);
        var client := CloseConnection(k);
        if client.Some? {
          connections := connections + [client.value];
        }
        todo := todo - {k};
        order := order + [k];
      }
    }

    /** CallTool under the read lock: the client to call, counted as in flight. */
    method BeginCall(key: Key) returns (client: Option<Client>)
      modifies `inflight
      ensures client == if closed then None else InstalledClient(old(State()), key)
      ensures inflight == old(inflight) + if client.Some? then 1 else 0
    {
      if closed {
        return None;
      }
      if key !in servers || servers[key].client.None? {
        return None;
      }
      client := servers[key].client;
      inflight := inflight + 1;
    }

    method EndCall()
      requires inflight > 0
      modifies `inflight
      ensures inflight == old(inflight) - 1
    {
      inflight := inflight - 1;
    }
  }
}
