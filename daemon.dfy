/**
 * The long-lived daemon of packages/mcp/src/daemon.ts: a registry of
 * running tool-provider child processes keyed by server id, and the
 * handlers of its HTTP routes. Each route handler is one method; its
 * reply is the status code and JSON body the route sends.
 *
 * What the MCP SDK does over a session (connect, listTools, callTool) is
 * not visible here: each such call is an outcome parameter, and the
 * requests the daemon sends are recorded in a ghost log. The wall clock
 * is a counter that ticks at every `new Date()`.
 */
module Daemon {
  import opened Wrappers
  import opened Schema
  import opened Launch

  /** An open client session with one child process (the SDK client and its transport). */
  type Session = nat

  /** How `startNpmServerAndConnect` ended: a connected session, or a thrown error's message. */
  datatype ConnectOutcome = Connected(session: Session) | ConnectFailed(message: string)

  /** How `client.listTools()` ended. */
  datatype ListOutcome = Listed(tools: seq<Tool>) | ListFailed(message: string)

  /** How `client.callTool(...)` ended. */
  datatype CallOutcome = Returned(result: Json) | CallFailed(message: string)

  /** A registry entry (ManagedServer); `lastUsed` is a clock reading. */
  datatype ManagedServer = ManagedServer(session: Session, packageName: string, options: ServerOptions, lastUsed: nat)

  /** One element of the `GET /servers` listing. */
  datatype ServerInfo = ServerInfo(id: string, packageName: string, lastUsed: nat)

  /** A request sent to a child over its session. */
  datatype Request =
    | ListToolsRequest(session: Session)
    | CallToolRequest(session: Session, name: string, arguments: Json)

  /** The JSON bodies the routes send. */
  datatype Body =
    | ErrorBody(error: string)
    | MessageBody(message: string)
    | StartedBody(message: string, serverId: string)
    | HealthBody(status: string, servers: seq<string>)
    | ServerListBody(list: seq<ServerInfo>)
    | ToolsBody(serverId: string, tools: seq<Tool>)
    | CallResultBody(serverId: string, toolName: string, result: Json)

  datatype Reply = Reply(status: nat, body: Body)

  /** The 500 reply of every catch block: the error's message, or "Unknown error" when it is empty. */
  function Failure(message: string): (r: Reply)
    ensures r.status == 500 && r.body.ErrorBody? && r.body.error != []
    ensures message != [] ==> r.body.error == message
  {
    Reply(500, ErrorBody(if message == [] then "Unknown error" else message))
  }

  function NotFound(serverId: string): Reply {
    Reply(404, ErrorBody("Server " + serverId + " not found"))
  }

  function AlreadyExists(serverId: string): Reply {
    Reply(400, ErrorBody("Server " + serverId + " already exists"))
  }

  /** `toolArgs || {}`: the arguments forwarded to the child are always a truthy value. */
  function ForwardedArguments(args: Option<Json>): (j: Json)
    ensures Truthy(j)
    ensures args.Some? && Truthy(args.value) ==> j == args.value
    ensures args.None? || !Truthy(args.value) ==> j == JObj([])
  {
    if args.Some? && Truthy(args.value) then args.value else JObj([])
  }

  predicate Distinct(s: seq<string>) {
    forall i, j :: 0 <= i < j < |s| ==> s[i] != s[j]
  }

  /** The insertion order after `Map.delete(x)`. */
  function Remove(s: seq<string>, x: string): (r: seq<string>)
    ensures forall y :: y in r <==> y in s && y != x
    ensures Distinct(s) ==> Distinct(r)
    ensures x !in s ==> r == s
  {
    if s == [] then []
    else
      assert Distinct(s) ==> Distinct(s[1..]) && s[0] !in s[1..] by {
        if Distinct(s) {
          assert forall i, j :: 0 <= i < j < |s[1..]| ==> s[1..][i] == s[i + 1] && s[1..][j] == s[j + 1];
        }
      }
      if s[0] == x then Remove(s[1..], x) else [s[0]] + Remove(s[1..], x)
  }

  /** Deleting an id that sits at index `i` leaves the ids before and after it in their order. */
  lemma {:induction false} RemoveAt(s: seq<string>, x: string, i: nat)
    requires Distinct(s) && i < |s| && s[i] == x
    ensures Remove(s, x) == s[..i] + s[i + 1..]
  {
    if i == 0 {
      assert s[0] !in s[1..];
      assert Remove(s, x) == Remove(s[1..], x);
    } else {
      assert Distinct(s[1..]) by {
        assert forall a, b :: 0 <= a < b < |s[1..]| ==> s[1..][a] == s[a + 1] && s[1..][b] == s[b + 1];
      }
      RemoveAt(s[1..], x, i - 1);
      assert s[0] != x;
      assert [s[0]] + (s[1..][..i - 1] + s[1..][i..]) == s[..i] + s[i + 1..];
    }
  }

  /** A sequence without repetitions has as many elements as the set of its elements. */
  lemma {:induction false} DistinctCardinality(s: seq<string>)
    requires Distinct(s)
    ensures |set id | id in s| == |s|
  {
    if s != [] {
      DistinctCardinality(s[1..]);
      assert (set id | id in s) == (set id | id in s[1..]) + {s[0]};
      assert s[0] !in s[1..];
    }
  }

  /** The sessions of the entries listed in `ids`, in that order. */
  function SessionsOf(ids: seq<string>, servers: map<string, ManagedServer>): (sessions: seq<Session>)
    requires forall id :: id in ids ==> id in servers
    ensures |sessions| == |ids|
    ensures forall i :: 0 <= i < |ids| ==> sessions[i] == servers[ids[i]].session
  {
    seq(|ids|, i requires 0 <= i < |ids| => servers[ids[i]].session)
  }

  class McpDaemon {
    /** The registry, keyed by server id. */
    var servers: map<string, ManagedServer>
    /** The ids in the registry in insertion order, the order in which a `Map` iterates. */
    var order: seq<string>
    /** The readings `new Date()` has produced so far. */
    var clock: nat
    /** Whether `start` has set the listening HTTP server. */
    var listening: bool
    /** `process.platform`, which picks the package runner. */
    const platform: string
    /** Every launch attempted, in order. */
    ghost var launched: seq<LaunchPlan>
    /** Every request sent to a child, in order. */
    ghost var requests: seq<Request>
    /** Every session closed, in order. */
    ghost var closed: seq<Session>

    ghost predicate Valid()
      reads this
    {
      && Distinct(order)
      && (forall id :: id in servers <==> id in order)
      && (forall id :: id in servers ==> servers[id].lastUsed <= clock)
    }

    constructor (platform: string)
      ensures Valid() && this.platform == platform
      ensures servers == map[] && order == [] && clock == 0 && !listening
      ensures launched == [] && requests == [] && closed == []
    {
      this.platform := platform;
      servers := map[];
      order := [];
      clock := 0;
      listening := false;
      launched := [];
      requests := [];
      closed := [];
    }

    /** `GET /health`: status "ok" and the ids of the running servers. */
    method Health() returns (reply: Reply)
      requires Valid()
      ensures reply.status == 200 && reply.body.HealthBody? && reply.body.status == "ok"
      ensures reply.body.servers == order
      ensures forall id :: id in reply.body.servers <==> id in servers
    {
      reply := Reply(200, HealthBody("ok", order));
    }

    /** `GET /servers`: one id, package name and last-use time per entry, in insertion order. */
    method List() returns (reply: Reply)
      requires Valid()
      ensures reply.status == 200 && reply.body.ServerListBody?
      ensures |reply.body.list| == |order|
      ensures forall i :: 0 <= i < |order| ==>
        var s := servers[order[i]];
        reply.body.list[i] == ServerInfo(order[i], s.packageName, s.lastUsed)
      ensures forall id :: id in servers <==> exists i :: 0 <= i < |reply.body.list| && reply.body.list[i].id == id
    {
      var list: seq<ServerInfo> := [];
      for i := 0 to |order|
        invariant |list| == i
        invariant forall k :: 0 <= k < i ==>
          list[k] == ServerInfo(order[k], servers[order[k]].packageName, servers[order[k]].lastUsed)
      {
        var s := servers[order[i]];
        list := list + [ServerInfo(order[i], s.packageName, s.lastUsed)];
      }
      reply := Reply(200, ServerListBody(list));
      forall id | id in servers
        ensures exists i :: 0 <= i < |list| && list[i].id == id
      {
        var i :| 0 <= i < |order| && order[i] == id;
        assert list[i].id == id;
      }
    }

    /**
     * `POST /servers`: an id already in the registry is refused with 400
     * before anything is launched; otherwise the server is launched and,
     * once connected, registered under the id with a fresh last-use time.
     */
    method StartServer(serverId: string, options: ServerOptions, outcome: ConnectOutcome) returns (reply: Reply)
      requires Valid()
      modifies this
      ensures Valid()
      ensures old(serverId in servers) ==>
        && reply == AlreadyExists(serverId)
        && servers == old(servers) && order == old(order) && clock == old(clock)
        && launched == old(launched)
      ensures serverId !in old(servers) ==> launched == old(launched) + [Plan(options, platform)]
      ensures serverId !in old(servers) && outcome.Connected? ==>
        && clock == old(clock) + 1
        && servers == old(servers)[serverId := ManagedServer(outcome.session, options.pkg, options, clock)]
        && order == old(order) + [serverId]
        && reply == Reply(200, StartedBody("Server " + serverId + " started successfully", serverId))
      ensures serverId !in old(servers) && outcome.ConnectFailed? ==>
        && servers == old(servers) && order == old(order) && clock == old(clock)
        && reply == Failure(outcome.message)
      ensures requests == old(requests) && closed == old(closed) && listening == old(listening)
    {
      if serverId in servers {
        return AlreadyExists(serverId);
      }
      launched := launched + [Plan(options, platform)];
      match outcome
      case ConnectFailed(message) =>
        reply := Failure(message);
      case Connected(session) =>
        clock := clock + 1;
        servers := servers[serverId := ManagedServer(session, options.pkg, options, clock)];
        order := order + [serverId];
        reply := Reply(200, StartedBody("Server " + serverId + " started successfully", serverId));
    }

    /**
     * `GET /servers/:serverId/tools`: 404 for an unknown id; otherwise the
     * child is asked for its tools, and a successful answer re-stamps the
     * entry's last-use time and is passed back.
     */
    method ListTools(serverId: string, outcome: ListOutcome) returns (reply: Reply)
      requires Valid()
      modifies this
      ensures Valid()
      ensures serverId !in old(servers) ==>
        reply == NotFound(serverId) && servers == old(servers) && clock == old(clock) && requests == old(requests)
      ensures serverId in old(servers) ==>
        requests == old(requests) + [ListToolsRequest(old(servers)[serverId].session)]
      ensures serverId in old(servers) && outcome.Listed? ==>
        && clock == old(clock) + 1
        && servers == old(servers)[serverId := old(servers)[serverId].(lastUsed := clock)]
        && reply == Reply(200, ToolsBody(serverId, outcome.tools))
      ensures serverId in old(servers) && outcome.ListFailed? ==>
        servers == old(servers) && clock == old(clock) && reply == Failure(outcome.message)
      ensures order == old(order) && launched == old(launched) && closed == old(closed) && listening == old(listening)
    {
      if serverId !in servers {
        return NotFound(serverId);
      }
      var entry := servers[serverId];
      requests := requests + [ListToolsRequest(entry.session)];
      match outcome
      case ListFailed(message) =>
        reply := Failure(message);
      case Listed(tools) =>
        clock := clock + 1;
        servers := servers[serverId := entry.(lastUsed := clock)];
        reply := Reply(200, ToolsBody(serverId, tools));
    }

    /**
     * `POST /servers/:serverId/tools/:toolName/call`: 404 for an unknown id;
     * otherwise the tool is called with the body's `arguments` (or `{}`
     * when they are missing or falsy), and a successful call re-stamps the
     * entry's last-use time and returns the child's result.
     */
    method CallTool(serverId: string, toolName: string, arguments: Option<Json>, outcome: CallOutcome) returns (reply: Reply)
      requires Valid()
      modifies this
      ensures Valid()
      ensures serverId !in old(servers) ==>
        reply == NotFound(serverId) && servers == old(servers) && clock == old(clock) && requests == old(requests)
      ensures serverId in old(servers) ==>
        requests == old(requests) + [CallToolRequest(old(servers)[serverId].session, toolName, ForwardedArguments(arguments))]
      ensures serverId in old(servers) && outcome.Returned? ==>
        && clock == old(clock) + 1
        && servers == old(servers)[serverId := old(servers)[serverId].(lastUsed := clock)]
        && reply == Reply(200, CallResultBody(serverId, toolName, outcome.result))
      ensures serverId in old(servers) && outcome.CallFailed? ==>
        servers == old(servers) && clock == old(clock) && reply == Failure(outcome.message)
      ensures order == old(order) && launched == old(launched) && closed == old(closed) && listening == old(listening)
    {
      if serverId !in servers {
        return NotFound(serverId);
      }
      var entry := servers[serverId];
      requests := requests + [CallToolRequest(entry.session, toolName, ForwardedArguments(arguments))];
      match outcome
      case CallFailed(message) =>
        reply := Failure(message);
      case Returned(result) =>
        clock := clock + 1;
        servers := servers[serverId := entry.(lastUsed := clock)];
        reply := Reply(200, CallResultBody(serverId, toolName, result));
    }

    /** `DELETE /servers/:serverId`: 404 for an unknown id; otherwise its session is closed and the entry removed. */
    method StopServer(serverId: string) returns (reply: Reply)
      requires Valid()
      modifies this
      ensures Valid()
      ensures serverId !in old(servers) ==>
        reply == NotFound(serverId) && servers == old(servers) && order == old(order) && closed == old(closed)
      ensures serverId in old(servers) ==>
        && closed == old(closed) + [old(servers)[serverId].session]
        && servers == old(servers) - {serverId}
        && order == Remove(old(order), serverId)
        && reply == Reply(200, MessageBody("Server " + serverId + " stopped successfully"))
      ensures clock == old(clock) && launched == old(launched) && requests == old(requests) && listening == old(listening)
    {
      if serverId !in servers {
        return NotFound(serverId);
      }
      closed := closed + [servers[serverId].session];
      servers := servers - {serverId};
      order := Remove(order, serverId);
      reply := Reply(200, MessageBody("Server " + serverId + " stopped successfully"));
    }

    /** Closes every entry's session once, in insertion order, then empties the registry. */
    method CloseAll()
      requires Valid()
      modifies this
      ensures Valid()
      ensures closed == old(closed) + SessionsOf(old(order), old(servers))
      ensures |closed| == |old(closed)| + |old(servers)|
      ensures servers == map[] && order == []
      ensures clock == old(clock) && launched == old(launched) && requests == old(requests) && listening == old(listening)
    {
      var i := 0;
      while i < |order|
        invariant 0 <= i <= |order|
        invariant servers == old(servers) && order == old(order) && clock == old(clock) && listening == old(listening)
        invariant launched == old(launched) && requests == old(requests)
        invariant closed == old(closed) + SessionsOf(order[..i], servers)
      {
        closed := closed + [servers[order[i]].session];
        i := i + 1;
        assert SessionsOf(order[..i], servers) == SessionsOf(order[..i - 1], servers) + [servers[order[i - 1]].session];
      }
      assert order[..i] == order;
      DistinctCardinality(order);
      assert (set id | id in order) == servers.Keys;
      servers := map[];
      order := [];
    }

    /** `DELETE /servers`: every running server is stopped. */
    method StopAll() returns (reply: Reply)
      requires Valid()
      modifies this
      ensures Valid()
      ensures closed == old(closed) + SessionsOf(old(order), old(servers))
      ensures servers == map[] && order == []
      ensures reply == Reply(200, MessageBody("All servers stopped successfully"))
      ensures clock == old(clock) && launched == old(launched) && requests == old(requests) && listening == old(listening)
    {
      CloseAll();
      reply := Reply(200, MessageBody("All servers stopped successfully"));
    }

    /** `start`: the HTTP server starts listening. */
    method Start()
      requires Valid()
      modifies this
      ensures Valid() && listening
      ensures servers == old(servers) && order == old(order) && clock == old(clock)
      ensures launched == old(launched) && requests == old(requests) && closed == old(closed)
    {
      listening := true;
    }

    /**
     * `stop`: only when the HTTP server was started are the running
     * servers stopped; the listener's own shutdown is not modelled.
     */
    method Stop()
      requires Valid()
      modifies this
      ensures Valid()
      ensures old(listening) ==> closed == old(closed) + SessionsOf(old(order), old(servers)) && servers == map[] && order == []
      ensures !old(listening) ==> closed == old(closed) && servers == old(servers) && order == old(order)
      ensures clock == old(clock) && launched == old(launched) && requests == old(requests) && listening == old(listening)
    {
      if listening {
        CloseAll();
      }
    }
  }

  /** Starting an id twice refuses the second start and keeps the first server. */
  method DuplicateStartKeepsFirst(serverId: string, first: ServerOptions, second: ServerOptions)
    returns (r1: Reply, r2: Reply, kept: Session)
    ensures r1.status == 200 && r2 == AlreadyExists(serverId)
    ensures kept == 1
  {
    var d := new McpDaemon("linux");
    r1 := d.StartServer(serverId, first, Connected(1));
    r2 := d.StartServer(serverId, second, Connected(2));
    kept := d.servers[serverId].session;
    assert |d.launched| == 1;
  }

  /** A stopped id is unknown to the tool routes and can be started again. */
  method StopThenRestart(serverId: string, options: ServerOptions)
    returns (afterStop: Reply, restart: Reply)
    ensures afterStop == NotFound(serverId)
    ensures restart.status == 200
  {
    var d := new McpDaemon("linux");
    var r := d.StartServer(serverId, options, Connected(7));
    r := d.StopServer(serverId);
    afterStop := d.ListTools(serverId, Listed([]));
    restart := d.StartServer(serverId, options, Connected(8));
    assert d.closed == [7];
  }
}
