/**
 * `Application.create_servers`: one SiLA 2 server per discovered device,
 * created category by category (pumps, axis systems, valve devices,
 * controller devices, I/O devices), each on the next port after the base
 * port 50051 and named after its device with underscores shown as spaces.
 */
module ServerLayout {
  import opened Common

  /** The server classes `create_servers` instantiates. */
  datatype ServerKind =
    | ContiflowServer
      /** A syringe pump server gets the pump's first valve, if it has one. */
    | NeMESYSServer(valve: Option<nat>)
    | MotionControlServer
    | ValveServer
    | QmixControlServer
    | QmixIOServer

  /** A discovered pump: its name, whether it is a ContiFlow pump, and its valves. */
  datatype PumpEntry = PumpEntry(name: string, contiflow: bool, valves: seq<nat>)

  /** What one loop iteration of `create_servers` needs: the server class and the device name. */
  datatype Request = Request(kind: ServerKind, deviceName: string)

  /** The arguments a server is created with. */
  datatype ServerArgs = ServerArgs(kind: ServerKind, port: int, serverName: string, description: string)

  /** The port before the first server's, `args.port` on entry. */
  const BasePort: int := 50051

  /** `name.replace("_", " ")` */
  function ServerName(name: string): (r: string)
    ensures |r| == |name|
    ensures forall i :: 0 <= i < |name| ==> r[i] == if name[i] == '_' then ' ' else name[i]
    ensures forall i :: 0 <= i < |r| ==> r[i] != '_'
    decreases |name|
  {
    if name == [] then []
    else [if name[0] == '_' then ' ' else name[0]] + ServerName(name[1..])
  }

  /**
   * The pump description template, filled with "contiflow pump made up of two"
   * for a ContiFlow pump and with nothing otherwise (which leaves two spaces).
   */
  function PumpDescription(contiflow: bool): string
  {
    "Allows to control a " + (if contiflow then "contiflow pump made up of two" else "") + " neMESYS syringe pump"
  }

  /** `args.description` for each server class, as `create_servers` formats it. */
  function Description(kind: ServerKind): string
  {
    match kind
    case ContiflowServer => PumpDescription(true)
    case NeMESYSServer(_) => PumpDescription(false)
    case MotionControlServer => "Allows to control motion systems like axis systems"
    case ValveServer => "Allows to control valve devices"
    case QmixControlServer => "Allows to control Qmix Controller Channels"
    case QmixIOServer => "Allows to control Qmix I/O Channels"
  }

  /** The server a pump gets: a ContiFlow server, or a syringe pump server with `pump.valves[0] if pump.valves else None`. */
  function PumpRequest(p: PumpEntry): Request
  {
    if p.contiflow then Request(ContiflowServer, p.name)
    else Request(NeMESYSServer(if p.valves == [] then None else Some(p.valves[0])), p.name)
  }

  function PumpRequests(pumps: seq<PumpEntry>): (r: seq<Request>)
    ensures |r| == |pumps| && forall i :: 0 <= i < |pumps| ==> r[i] == PumpRequest(pumps[i])
  {
    seq(|pumps|, i requires 0 <= i < |pumps| => PumpRequest(pumps[i]))
  }

  /** One request of class `kind` per device name, in order. */
  function Requests(kind: ServerKind, names: seq<string>): (r: seq<Request>)
    ensures |r| == |names| && forall i :: 0 <= i < |names| ==> r[i] == Request(kind, names[i])
  {
    seq(|names|, i requires 0 <= i < |names| => Request(kind, names[i]))
  }

  /** Every request, in the order `create_servers` visits the categories. */
  function AllRequests(pumps: seq<PumpEntry>, axes: seq<string>, valves: seq<string>,
                       controllers: seq<string>, ios: seq<string>): seq<Request>
  {
    PumpRequests(pumps) + Requests(MotionControlServer, axes) + Requests(ValveServer, valves)
    + Requests(QmixControlServer, controllers) + Requests(QmixIOServer, ios)
  }

  /** The arguments of the server created for `req` on `port`. */
  function Server(req: Request, port: int): ServerArgs
  {
    ServerArgs(req.kind, port, ServerName(req.deviceName), Description(req.kind))
  }

  /** Reference layout: the `k`-th request gets port `last + 1 + k`. */
  function Layout(reqs: seq<Request>, last: int): (r: seq<ServerArgs>)
    ensures |r| == |reqs| && forall k :: 0 <= k < |reqs| ==> r[k] == Server(reqs[k], last + 1 + k)
  {
    seq(|reqs|, k requires 0 <= k < |reqs| => Server(reqs[k], last + 1 + k))
  }

  /** Laying out two runs of requests one after the other is laying out their concatenation. */
  lemma LayoutAppend(a: seq<Request>, b: seq<Request>, last: int)
    ensures Layout(a, last) + Layout(b, last + |a|) == Layout(a + b, last)
  {
    var left := Layout(a, last) + Layout(b, last + |a|);
    var whole := Layout(a + b, last);
    forall k | 0 <= k < |whole|
      ensures left[k] == whole[k]
    {
      if k >= |a| {
        assert (a + b)[k] == b[k - |a|];
      }
    }
  }

  /**
   * One category loop of `create_servers`: for each request, `args.port += 1`
   * and a server is created with the current arguments.
   */
  method AddServers(servers: seq<ServerArgs>, port: int, reqs: seq<Request>) returns (servers': seq<ServerArgs>, port': int)
    ensures servers' == servers + Layout(reqs, port)
    ensures port' == port + |reqs|
  {
    servers', port' := servers, port;
    var i := 0;
    while i < |reqs|
      invariant 0 <= i <= |reqs|
      invariant port' == port + i
      invariant servers' == servers + Layout(reqs[..i], port)
    {
      port' := port' + 1;
      var req := reqs[i];
      servers' := servers' + [ServerArgs(req.kind, port', ServerName(req.deviceName), Description(req.kind))];
      assert Layout(reqs[..i + 1], port) == Layout(reqs[..i], port) + [Server(req, port')];
      i := i + 1;
    }
    assert reqs[..i] == reqs;
  }

  /** Laid-out servers get strictly increasing ports above `last` and names without underscores. */
  lemma LayoutOrdered(reqs: seq<Request>, last: int)
    ensures var r := Layout(reqs, last);
            && (forall i, j :: 0 <= i < j < |r| ==> last < r[i].port < r[j].port)
            && (forall k :: 0 <= k < |r| ==> '_' !in r[k].serverName)
  {
    var r := Layout(reqs, last);
    forall k | 0 <= k < |r|
      ensures '_' !in r[k].serverName
    {
      assert r[k].serverName == ServerName(reqs[k].deviceName);
    }
  }

  /**
   * `create_servers`: the `k`-th server (counting from 0 over all categories
   * in order) serves the `k`-th request on port 50052 + k.
   */
  method CreateServers(pumps: seq<PumpEntry>, axes: seq<string>, valves: seq<string>,
                       controllers: seq<string>, ios: seq<string>) returns (servers: seq<ServerArgs>)
    ensures servers == Layout(AllRequests(pumps, axes, valves, controllers, ios), BasePort)
    ensures forall i, j :: 0 <= i < j < |servers| ==> BasePort < servers[i].port < servers[j].port
    ensures forall k :: 0 <= k < |servers| ==> '_' !in servers[k].serverName
  {
    var port := BasePort;
    servers := [];
    var p := PumpRequests(pumps);
    var a := Requests(MotionControlServer, axes);
    var v := Requests(ValveServer, valves);
    var c := Requests(QmixControlServer, controllers);
    var o := Requests(QmixIOServer, ios);
    servers, port := AddServers(servers, port, p);
    assert servers == Layout(p, BasePort);
    servers, port := AddCategory(servers, port, p, a);
    servers, port := AddCategory(servers, port, p + a, v);
    servers, port := AddCategory(servers, port, p + a + v, c);
    servers, port := AddCategory(servers, port, p + a + v + c, o);
    LayoutOrdered(p + a + v + c + o, BasePort);
  }

  /** One more category after the categories `done`: the layout grows by the category's servers. */
  method AddCategory(servers: seq<ServerArgs>, port: int, ghost done: seq<Request>, reqs: seq<Request>)
    returns (servers': seq<ServerArgs>, port': int)
    requires servers == Layout(done, BasePort) && port == BasePort + |done|
    ensures servers' == Layout(done + reqs, BasePort) && port' == BasePort + |done + reqs|
  {
    servers', port' := AddServers(servers, port, reqs);
    LayoutAppend(done, reqs, BasePort);
  }

  /** A pump is served by a ContiFlow server exactly when it is a ContiFlow pump, with the matching description. */
  lemma PumpServerClass(p: PumpEntry, port: int)
    ensures Server(PumpRequest(p), port).kind.ContiflowServer? <==> p.contiflow
    ensures !p.contiflow ==> Server(PumpRequest(p), port).kind.valve == (if p.valves == [] then None else Some(p.valves[0]))
    ensures Server(PumpRequest(p), port).description == PumpDescription(p.contiflow)
  {
  }

  /** Two pumps, the first a ContiFlow pump, then one valve device: ports 50052, 50053 and 50054. */
  lemma CreateServersExample()
    ensures var all := AllRequests([PumpEntry("P_1", true, []), PumpEntry("P_2", false, [3])], [], ["V"], [], []);
            && |Layout(all, BasePort)| == 3
            && Layout(all, BasePort)[0].kind == ContiflowServer && Layout(all, BasePort)[0].port == 50052
            && Layout(all, BasePort)[1].kind == NeMESYSServer(Some(3)) && Layout(all, BasePort)[1].port == 50053
            && Layout(all, BasePort)[2].kind == ValveServer && Layout(all, BasePort)[2].port == 50054
            && Layout(all, BasePort)[1].serverName == "P 2"
  {
    var all := AllRequests([PumpEntry("P_1", true, []), PumpEntry("P_2", false, [3])], [], ["V"], [], []);
    assert all[1] == Request(NeMESYSServer(Some(3)), "P_2");
    assert all[2] == Request(ValveServer, "V");
    assert ServerName("P_2") == "P 2";
  }
}
