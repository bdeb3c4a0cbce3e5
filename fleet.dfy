/** The backend's fleet: the in-memory table of five simulated servers, the listing
    `GET /api/servidores` that puts the real machine in front of them, and the validated
    update `POST /api/servidores/:id/estado`. The machine's own readings (load, memory,
    network interfaces) and the random metrics of online simulated servers are inputs. */
module Fleet {
  import opened Wrappers
  import opened Text
  import opened Wire
  import opened Auth

  /** One simulated server, as stored. */
  datatype SimServer = SimServer(id: int, nombre: string, ip: string, estado: string, servicios: seq<string>)

  /** The table as the process starts: ids 1 to 5, all offline. */
  function InitialTable(): seq<SimServer> {
    [ SimServer(1, "Servidor Principal", "10.10.10.1", Offline, ["Active Directory", "DNS", "DHCP"]),
      SimServer(2, "Servidor Secundario", "10.10.10.2", Offline,
                ["Servicios de impresión", "Servicios de archivos", "FTP"]),
      SimServer(3, "VPS", "10.10.10.3", Offline, ["Hosting web", "Base de datos", "Docker"]),
      SimServer(4, "VPS", "10.10.10.4", Offline, ["Hosting web", "Base de datos", "Docker"]),
      SimServer(5, "GPU", "10.10.10.5", Offline, ["Hosting web", "Base de datos", "Docker"]) ]
  }

  /** No two servers of the table share an id. */
  ghost predicate UniqueIds(table: seq<SimServer>) {
    forall i, j :: 0 <= i < j < |table| ==> table[i].id != table[j].id
  }

  // ---------------------------------------------------------------------------
  // Listing

  /** The numbers drawn for an online simulated server in one listing (CPU percent and GB of RAM). */
  datatype Sample = Sample(cpu: string, ram: string)

  /** A simulated server as listed: a copy with metrics, zeroes when it is not online. */
  function WithMetrics(s: SimServer, sample: Sample): (v: ServerView)
    ensures v.id == Num(s.id) && v.nombre == s.nombre && v.ip == s.ip
    ensures v.estado == s.estado && v.servicios == s.servicios
    ensures s.estado != Online ==> v.cpu == "0%" && v.ram == "0 GB"
  {
    var cpu := if s.estado == Online then sample.cpu + "%" else "0%";
    var ram := if s.estado == Online then sample.ram + " GB" else "0 GB";
    ServerView(Num(s.id), s.nombre, s.ip, s.estado, s.servicios, cpu, ram)
  }

  /** `servidoresSimulados.map(...)`: the table with this listing's metrics. */
  function SimulatedViews(table: seq<SimServer>, samples: nat -> Sample): (vs: seq<ServerView>)
    ensures |vs| == |table|
    ensures forall i :: 0 <= i < |table| ==> vs[i] == WithMetrics(table[i], samples(i))
  {
    seq(|table|, i requires 0 <= i < |table| => WithMetrics(table[i], samples(i)))
  }

  /** A network interface of the machine the backend runs on. */
  datatype Interface = Interface(ip4: string, internal: bool)

  /** What the backend reads about its own machine: CPU load and used and total memory in
      MB (already formatted), and its network interfaces. */
  datatype Readings = Readings(cpuLoad: string, memUsed: string, memTotal: string, interfaces: seq<Interface>)

  /** An interface `find` accepts: it has an IPv4 address and is not internal. */
  predicate External(n: Interface) {
    n.ip4 != "" && !n.internal
  }

  /** `k` is the position of the first interface `find` accepts. */
  predicate FirstExternal(interfaces: seq<Interface>, k: int) {
    && 0 <= k < |interfaces|
    && External(interfaces[k])
    && forall j :: 0 <= j < k ==> !External(interfaces[j])
  }

  /** The IPv4 of the first interface that has one and is not internal, else the loopback address. */
  function ExternalIp(interfaces: seq<Interface>): (ip: string)
    ensures forall k :: FirstExternal(interfaces, k) ==> ip == interfaces[k].ip4
    ensures (forall k :: 0 <= k < |interfaces| ==> !External(interfaces[k])) ==> ip == "127.0.0.1"
  {
    if interfaces == [] then "127.0.0.1"
    else if External(interfaces[0]) then interfaces[0].ip4
    else ExternalIp(interfaces[1..])
  }

  /** The record of the real machine: online with its readings, or, when reading them
      failed (`None`), offline with zeroes and no services. */
  function RealRecord(readings: Option<Readings>): ServerView {
    match readings
    case None => ServerView(LocalPc, "VPS Real", "127.0.0.1", Offline, [], "0%", "0 MB")
    case Some(r) =>
      ServerView(LocalPc, "VPS Real", ExternalIp(r.interfaces), Online, ["Hosting", "Node.js", "React"],
                 r.cpuLoad + "%", r.memUsed + " / " + r.memTotal + " MB")
  }

  /** The body of `GET /api/servidores`; `samples(i)` are the numbers drawn for server `i`. */
  function ListServers(table: seq<SimServer>, readings: Option<Readings>, samples: nat -> Sample): (r: seq<ServerView>)
    ensures |r| == |table| + 1
    ensures r[0].id == LocalPc && r[0].nombre == "VPS Real"
    ensures r[0].estado == Online <==> readings.Some?
    ensures readings.None? ==> r[0] == ServerView(LocalPc, "VPS Real", "127.0.0.1", Offline, [], "0%", "0 MB")
    ensures readings.Some? ==>
      && r[0].ip == ExternalIp(readings.value.interfaces)
      && r[0].servicios == ["Hosting", "Node.js", "React"]
      && r[0].cpu == readings.value.cpuLoad + "%"
      && r[0].ram == readings.value.memUsed + " / " + readings.value.memTotal + " MB"
    ensures forall i :: 0 <= i < |table| ==>
      && r[i + 1].id == Num(table[i].id)
      && r[i + 1].nombre == table[i].nombre
      && r[i + 1].ip == table[i].ip
      && r[i + 1].estado == table[i].estado
      && r[i + 1].servicios == table[i].servicios
    ensures forall i :: 0 <= i < |table| && table[i].estado != Online ==>
      r[i + 1].cpu == "0%" && r[i + 1].ram == "0 GB"
  {
    var rest := SimulatedViews(table, samples);
    var r := [RealRecord(readings)] + rest;
    assert forall i :: 0 <= i < |table| ==> r[i + 1] == rest[i];
    r
  }

  // ---------------------------------------------------------------------------
  // Update

  /** `table.find(s => s.id === id)` as an index: the first server with that id, or `|table|`. */
  function FindById(table: seq<SimServer>, id: int): (k: nat)
    ensures k <= |table|
    ensures k < |table| ==> table[k].id == id
    ensures forall j :: 0 <= j < k ==> table[j].id != id
  {
    if table == [] then 0 else if table[0].id == id then 0 else 1 + FindById(table[1..], id)
  }

  /** The server the route parameter designates: `parseInt` of it, then `find`. `NaN`
      equals no id. */
  function Target(table: seq<SimServer>, rawId: string): (k: nat)
    ensures k <= |table|
  {
    match ParseInt(rawId)
    case None => |table|
    case Some(id) => FindById(table, id)
  }

  /** The reply to an update, and the table after it. */
  datatype Update = Update(reply: HttpReply, table: seq<SimServer>)

  predicate ValidEstado(estado: Option<string>) {
    estado == Some(Online) || estado == Some(Offline)
  }

  /** `POST /api/servidores/:id/estado` once past the token gate: 404 for an id that
      designates no server, then 400 for a state other than online/offline, otherwise
      the server's state is assigned. */
  function UpdateEstado(table: seq<SimServer>, rawId: string, estado: Option<string>): (u: Update)
    ensures u.reply.code == 404 <==> forall i :: 0 <= i < |table| ==> ParseInt(rawId) != Some(table[i].id)
    ensures u.reply.code == 400 <==> (Target(table, rawId) < |table| && !ValidEstado(estado))
    ensures u.reply.code != 200 ==> u.table == table
    ensures u.reply.code == 200 ==>
      && ValidEstado(estado)
      && |u.table| == |table|
      && forall i :: 0 <= i < |table| ==>
           u.table[i] == if i == Target(table, rawId) then table[i].(estado := estado.value) else table[i]
    ensures u.reply.code in {200, 400, 404}
    ensures u.reply.code == 404 ==> u.reply == Reply(404, Mensaje("Servidor no encontrado"))
    ensures u.reply.code == 400 ==> u.reply == Reply(400, Mensaje("Estado inválido"))
    ensures u.reply.code == 200 ==>
      && ParseInt(rawId).Some?
      && u.reply == Reply(200, Mensaje("Estado del servidor " + IntString(ParseInt(rawId).value)
                                       + " actualizado a " + estado.value))
  {
    var k := Target(table, rawId);
    if k == |table| then
      Update(Reply(404, Mensaje("Servidor no encontrado")), table)
    else if !ValidEstado(estado) then
      Update(Reply(400, Mensaje("Estado inválido")), table)
    else
      var id := table[k].id;
      Update(Reply(200, Mensaje("Estado del servidor " + IntString(id) + " actualizado a " + estado.value)),
             table[k := table[k].(estado := estado.value)])
  }

  /** Repeating an update changes nothing more and gets the same reply. */
  lemma UpdateIdempotent(table: seq<SimServer>, rawId: string, estado: Option<string>)
    ensures var once := UpdateEstado(table, rawId, estado);
      UpdateEstado(once.table, rawId, estado) == once
  {
    var once := UpdateEstado(table, rawId, estado);
    if once.reply.code == 200 {
      var id := ParseInt(rawId).value;
      var k := Target(table, rawId);
      SameIdsSameTarget(table, once.table, id);
      assert Target(once.table, rawId) == k;
      assert once.table[k := once.table[k].(estado := estado.value)] == once.table;
      assert once.table[k].id == table[k].id;
    }
  }

  lemma {:induction false} SameIdsSameTarget(a: seq<SimServer>, b: seq<SimServer>, id: int)
    requires |a| == |b| && forall i :: 0 <= i < |a| ==> a[i].id == b[i].id
    ensures FindById(a, id) == FindById(b, id)
  {
    if a != [] {
      SameIdsSameTarget(a[1..], b[1..], id);
    }
  }

  /** The real machine's id is not a number, so it can never be updated here. */
  lemma LocalPcIsNotFound(table: seq<SimServer>, estado: Option<string>)
    ensures UpdateEstado(table, "local-pc", estado) == Update(Reply(404, Mensaje("Servidor no encontrado")), table)
  {
    assert ParseInt("local-pc") == None by {
      var s := "local-pc";
      assert s[0] == 'l' && !IsJsSpace(s[0]);
      TrimStartKeeps(s);
      assert DigitValue(s[0]) == 21;
      assert DigitPrefix(s, 10) == [];
      assert ParseMagnitude(s) == None;
    }
  }

  /** The front end addresses a server by `String(id)`; `parseInt` of that finds the same
      server again when ids are unique. */
  lemma TargetOfIdString(table: seq<SimServer>, i: int)
    requires UniqueIds(table) && 0 <= i < |table|
    ensures Target(table, IntString(table[i].id)) == i
  {
    ParseIntString(table[i].id);
  }

  // ---------------------------------------------------------------------------
  // The table as the process holds it

  /** `servidoresSimulados`: a module-level array whose records the update route mutates. */
  class SimulatedFleet {
    var servers: seq<SimServer>

    /** Only the state of a server ever changes, and it is always online or offline. */
    ghost predicate Valid()
      reads this
    {
      && |servers| == |InitialTable()|
      && forall i :: 0 <= i < |servers| ==>
           && servers[i] == InitialTable()[i].(estado := servers[i].estado)
           && (servers[i].estado == Online || servers[i].estado == Offline)
    }

    constructor ()
      ensures Valid() && servers == InitialTable()
    {
      servers := InitialTable();
    }

    /** `GET /api/servidores` behind the token gate: 401 without a valid token, otherwise the listing. */
    method List(header: Option<string>, verify: string -> Option<Claims>, readings: Option<Readings>,
                samples: nat -> Sample) returns (r: Result<seq<ServerView>, HttpReply>)
      ensures VerifyToken(header, verify).Deny? <==> r.Err?
      ensures r.Err? ==> r.error.code == 401
      ensures r.Err? ==> r.error == VerifyToken(header, verify).reply
      ensures r.Ok? ==> r.value == ListServers(servers, readings, samples)
    {
      match VerifyToken(header, verify)
      case Deny(reply) => return Err(reply);
      case Next(_) => return Ok(ListServers(servers, readings, samples));
    }

    /** `POST /api/servidores/:id/estado` behind the token gate. */
    method SetEstado(header: Option<string>, verify: string -> Option<Claims>, rawId: string,
                     estado: Option<string>) returns (reply: HttpReply)
      requires Valid()
      modifies this
      ensures Valid()
      ensures VerifyToken(header, verify).Deny? ==>
        reply == VerifyToken(header, verify).reply && servers == old(servers)
      ensures VerifyToken(header, verify).Next? ==>
        reply == UpdateEstado(old(servers), rawId, estado).reply
        && servers == UpdateEstado(old(servers), rawId, estado).table
    {
      match VerifyToken(header, verify)
      case Deny(r) =>
        return r;
      case Next(_) =>
        var k := Target(servers, rawId);
        if k == |servers| {
          return Reply(404, Mensaje("Servidor no encontrado"));
        }
        if !ValidEstado(estado) {
          return Reply(400, Mensaje("Estado inválido"));
        }
        var id := servers[k].id;
        servers := servers[k := servers[k].(estado := estado.value)];
        reply := Reply(200, Mensaje("Estado del servidor " + IntString(id) + " actualizado a " + estado.value));
    }
  }
}
