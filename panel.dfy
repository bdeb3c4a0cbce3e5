/** The control panel page: the search filter over the server cards, the "restarting"
    marking, the event log and its icons, the choice of servers a reset powers on, and
    the button handlers that drive the backend through its API and update the page's
    state. The backend API is an oracle: each handler is told whether each call it makes
    succeeds and what a refresh of the server list returns, and it returns the calls it
    made, in order. */
module Panel {
  import opened Wrappers
  import opened Text
  import opened Seqs
  import opened Wire

  // ---------------------------------------------------------------------------
  // Search

  /** Whether a card is shown for query `query`: the lower-cased query occurs in the
      lower-cased name, IP, state or one of the services. */
  predicate Matches(srv: ServerView, query: string) {
    var texto := Lower(query);
    || Includes(Lower(srv.nombre), texto)
    || Includes(Lower(srv.ip), texto)
    || Includes(Lower(srv.estado), texto)
    || exists k :: 0 <= k < |srv.servicios| && Includes(Lower(srv.servicios[k]), texto)
  }

  /** The cards shown: `servidores.filter(...)`. */
  function Visible(servers: seq<ServerView>, query: string): seq<ServerView> {
    Filter(servers, (srv: ServerView) => Matches(srv, query))
  }

  /** A server is shown exactly when it is in the list and matches, and the shown
      servers keep the list's order. */
  lemma VisibleSpec(servers: seq<ServerView>, query: string)
    ensures forall srv :: srv in Visible(servers, query) <==> srv in servers && Matches(srv, query)
    ensures IsSubsequence(Visible(servers, query), servers)
  {
    forall srv ensures srv in Visible(servers, query) <==> srv in servers && Matches(srv, query) {
      FilterMembers(servers, (srv: ServerView) => Matches(srv, query), srv);
    }
    FilterOrder(servers, (srv: ServerView) => Matches(srv, query));
  }

  /** The empty query shows every server. */
  lemma EmptyQueryShowsAll(servers: seq<ServerView>)
    ensures Visible(servers, "") == servers
  {
    forall i | 0 <= i < |servers| ensures Matches(servers[i], "") {
      assert Lower("") == "";
      IncludesEmpty(Lower(servers[i].nombre));
    }
    FilterAll(servers, (srv: ServerView) => Matches(srv, ""));
  }

  // ---------------------------------------------------------------------------
  // Restart marking, toggle and restart buttons

  const Restarting := "Reiniciando..."

  /** The list while a restart is under way: the servers whose `String(id)` is that of
      the target show `"Reiniciando..."`; every other server, and every other field, is
      as it was. */
  function MarkRestarting(servers: seq<ServerView>, target: Id): (r: seq<ServerView>)
    ensures |r| == |servers|
    ensures forall i :: 0 <= i < |servers| ==> r[i] == servers[i].(estado := r[i].estado)
    ensures forall i :: 0 <= i < |servers| ==>
      r[i].estado == if IdString(servers[i].id) == IdString(target) then Restarting else servers[i].estado
  {
    seq(|servers|, i requires 0 <= i < |servers| =>
      if IdString(servers[i].id) == IdString(target) then servers[i].(estado := Restarting) else servers[i])
  }

  /** Marking never touches the real machine when the target is a simulated server. */
  lemma MarkingSparesLocalPc(servers: seq<ServerView>, n: int, i: int)
    requires 0 <= i < |servers| && servers[i].id == LocalPc
    ensures MarkRestarting(servers, Num(n))[i] == servers[i]
  {
    NumIsNotLocalPc(n);
  }

  /** A request to the backend made by the panel. */
  datatype ApiCall = PowerOnCall(id: Id) | PowerOffCall(id: Id) | FetchServers

  /** `loadingBotones[srv.id]`: the flags are keyed by `String(id)`; a missing key is falsy. */
  predicate IsLoading(loading: map<string, bool>, id: Id) {
    IdString(id) in loading && loading[IdString(id)]
  }

  /** What the on/off switch of a card asks for: off when the server is online, on otherwise. */
  function ToggleCall(srv: ServerView): (c: ApiCall)
    ensures c == PowerOffCall(srv.id) <==> srv.estado == Online
    ensures c == PowerOnCall(srv.id) <==> srv.estado != Online
  {
    if srv.estado == Online then PowerOffCall(srv.id) else PowerOnCall(srv.id)
  }

  /** The restart button of a card is enabled only for an online server that is not loading. */
  predicate RestartEnabled(srv: ServerView, loading: map<string, bool>) {
    srv.estado == Online && !IsLoading(loading, srv.id)
  }

  /** A server being restarted cannot be restarted again, and its switch would power it on. */
  lemma MarkedServerControls(servers: seq<ServerView>, target: Id, i: int, loading: map<string, bool>)
    requires 0 <= i < |servers| && IdString(servers[i].id) == IdString(target)
    ensures !RestartEnabled(MarkRestarting(servers, target)[i], loading)
    ensures ToggleCall(MarkRestarting(servers, target)[i]) == PowerOnCall(servers[i].id)
  {
  }

  // ---------------------------------------------------------------------------
  // Event log

  datatype Event = Event(hora: string, mensaje: string)

  /** `actualizarEventos`: the new event goes in front of the log. */
  function Logged(eventos: seq<Event>, hora: string, mensaje: string): (r: seq<Event>)
    ensures |r| == |eventos| + 1 && r[0] == Event(hora, mensaje) && r[1..] == eventos
  {
    [Event(hora, mensaje)] + eventos
  }

  /** Logging a sequence of events one by one. */
  function LogAll(eventos: seq<Event>, entries: seq<Event>): seq<Event>
    decreases |entries|
  {
    if entries == [] then eventos
    else LogAll(Logged(eventos, entries[0].hora, entries[0].mensaje), entries[1..])
  }

  function Reversed(s: seq<Event>): (r: seq<Event>)
    ensures |r| == |s|
  {
    if s == [] then [] else Reversed(s[1..]) + [s[0]]
  }

  /** The log reads newest first: after logging `entries` in order, it is those entries
      in reverse order in front of the earlier log, which is kept as it was. */
  lemma {:induction false} LogNewestFirst(eventos: seq<Event>, entries: seq<Event>)
    ensures LogAll(eventos, entries) == Reversed(entries) + eventos
    decreases |entries|
  {
    if entries != [] {
      var e := entries[0];
      LogNewestFirst(Logged(eventos, e.hora, e.mensaje), entries[1..]);
      assert Reversed(entries) == Reversed(entries[1..]) + [e];
    }
  }

  /** The icon shown beside an event. */
  datatype Icon = CheckCircle | PowerIcon | PowerOffIcon | RotateIcon | NoIcon

  /** The icon of an event: the first of "vuelto a estar online", "encendido", "apagado",
      "reiniciando" that the message contains decides; none of them means no icon. */
  function EventIcon(mensaje: string): (icon: Icon)
    ensures icon == CheckCircle <==> Includes(mensaje, "vuelto a estar online")
    ensures icon == PowerIcon <==>
      (!Includes(mensaje, "vuelto a estar online") && Includes(mensaje, "encendido"))
    ensures icon == PowerOffIcon <==>
      (!Includes(mensaje, "vuelto a estar online") && !Includes(mensaje, "encendido")
       && Includes(mensaje, "apagado"))
    ensures icon == RotateIcon <==>
      (!Includes(mensaje, "vuelto a estar online") && !Includes(mensaje, "encendido")
       && !Includes(mensaje, "apagado") && Includes(mensaje, "reiniciando"))
  {
    if Includes(mensaje, "vuelto a estar online") then CheckCircle
    else if Includes(mensaje, "encendido") then PowerIcon
    else if Includes(mensaje, "apagado") then PowerOffIcon
    else if Includes(mensaje, "reiniciando") then RotateIcon
    else NoIcon
  }

  /** The messages the handlers log, for a server called `nombre`. */
  function PoweredOnMessage(nombre: string): string { " " + nombre + " ha sido encendido" }
  function PoweredOffMessage(nombre: string): string { " " + nombre + " ha sido apagado" }
  function RestartingMessage(nombre: string): string { " " + nombre + " se está reiniciando" }
  function RestoredMessage(nombre: string): string { nombre + " ha vuelto a estar online" }
  const ResetMessage := "\U{2699}\U{FE0F} Todos los servidores fueron restablecidos"

  /** Every event a power handler logs gets an icon: a restored server always the check
      mark, a powered-on one the power icon, a powered-off one the power-off icon and a
      restarting one the rotating arrow, unless the server's own name contains a keyword
      that ranks higher. */
  lemma HandlerEventIcons(nombre: string)
    ensures EventIcon(RestoredMessage(nombre)) == CheckCircle
    ensures EventIcon(PoweredOnMessage(nombre)) in {CheckCircle, PowerIcon}
    ensures EventIcon(PoweredOffMessage(nombre)) in {CheckCircle, PowerIcon, PowerOffIcon}
    ensures EventIcon(RestartingMessage(nombre)) != NoIcon
  {
    assert RestoredMessage(nombre) == (nombre + " ha ") + "vuelto a estar online";
    IncludesSuffix(nombre + " ha ", "vuelto a estar online");
    assert PoweredOnMessage(nombre) == (" " + nombre + " ha sido ") + "encendido";
    IncludesSuffix(" " + nombre + " ha sido ", "encendido");
    assert PoweredOffMessage(nombre) == (" " + nombre + " ha sido ") + "apagado";
    IncludesSuffix(" " + nombre + " ha sido ", "apagado");
    assert RestartingMessage(nombre) == (" " + nombre + " se está ") + "reiniciando";
    IncludesSuffix(" " + nombre + " se está ", "reiniciando");
  }

  // ---------------------------------------------------------------------------
  // Reset

  /** The servers a reset powers on: every listed server whose id is not `"local-pc"`. */
  function ResetTargets(data: seq<ServerView>): seq<ServerView> {
    Filter(data, (s: ServerView) => s.id != LocalPc)
  }

  /** One power-on call per target, in order. */
  function PowerOnCalls(targets: seq<ServerView>): (calls: seq<ApiCall>)
    ensures |calls| == |targets|
    ensures forall i :: 0 <= i < |targets| ==> calls[i] == PowerOnCall(targets[i].id)
  {
    seq(|targets|, i requires 0 <= i < |targets| => PowerOnCall(targets[i].id))
  }

  /** A reset powers on exactly the listed servers other than the real machine, in list
      order, and in particular every simulated (numeric id) server. */
  lemma ResetTargetsSpec(data: seq<ServerView>)
    ensures forall s :: s in ResetTargets(data) <==> s in data && s.id != LocalPc
    ensures IsSubsequence(ResetTargets(data), data)
    ensures forall i :: 0 <= i < |data| && data[i].id.Num? ==> data[i] in ResetTargets(data)
    ensures forall c :: c in PowerOnCalls(ResetTargets(data)) ==> c.id != LocalPc
  {
    forall s ensures s in ResetTargets(data) <==> s in data && s.id != LocalPc {
      FilterMembers(data, (s: ServerView) => s.id != LocalPc, s);
    }
    FilterOrder(data, (s: ServerView) => s.id != LocalPc);
  }

  // ---------------------------------------------------------------------------
  // What the handlers log, as written and as intended

  /** As written, the reset handler clears the log and then logs its event through the
      closure of the render it was started from, so the log it leaves is the event in
      front of the log it captured at that render. */
  function ResetLogAsWritten(captured: seq<Event>, hora: string): seq<Event> {
    Logged(captured, hora, ResetMessage)
  }

  /** The log a reset evidently means to leave: the history cleared, then its own event. */
  function ResetLog(hora: string): (r: seq<Event>)
    ensures r == [Event(hora, ResetMessage)]
  {
    Logged([], hora, ResetMessage)
  }

  /** As written, a reset that finds any earlier event in the log keeps all of it. */
  lemma ResetKeepsHistory(captured: seq<Event>, hora: string)
    requires captured != []
    ensures ResetLogAsWritten(captured, hora) != ResetLog(hora)
    ensures ResetLogAsWritten(captured, hora)[1..] == captured
  {
  }

  /** As written, the restart handler logs "restarting", and ten seconds later logs
      "back online" through the same captured log, which replaces the first entry. */
  function RestartLogAsWritten(captured: seq<Event>, hora1: string, hora2: string, nombre: string): seq<Event> {
    Logged(captured, hora2, RestoredMessage(nombre))
  }

  /** The log a completed restart evidently means to leave: both events, newest first. */
  function RestartLog(captured: seq<Event>, hora1: string, hora2: string, nombre: string): (r: seq<Event>)
    ensures r == LogAll(captured, [Event(hora1, RestartingMessage(nombre)), Event(hora2, RestoredMessage(nombre))])
  {
    var e1, e2 := Event(hora1, RestartingMessage(nombre)), Event(hora2, RestoredMessage(nombre));
    var once := Logged(captured, e1.hora, e1.mensaje);
    assert [e1, e2][1..] == [e2] && [e2][1..] == [];
    assert LogAll(once, [e2]) == LogAll(Logged(once, e2.hora, e2.mensaje), []);
    Logged(Logged(captured, hora1, RestartingMessage(nombre)), hora2, RestoredMessage(nombre))
  }

  /** As written, a completed restart loses its "restarting" event. */
  lemma RestartLosesEvent(captured: seq<Event>, hora1: string, hora2: string, nombre: string)
    requires Event(hora1, RestartingMessage(nombre)) !in captured
    ensures Event(hora1, RestartingMessage(nombre)) !in RestartLogAsWritten(captured, hora1, hora2, nombre)
    ensures Event(hora1, RestartingMessage(nombre)) in RestartLog(captured, hora1, hora2, nombre)
  {
    assert |RestartingMessage(nombre)| != |RestoredMessage(nombre)|;
  }

  // ---------------------------------------------------------------------------
  // The page's state and its handlers

  /** `k` is the first position of `servers` whose id reads as `String(id)`. */
  predicate FirstWithId(servers: seq<ServerView>, id: Id, k: int) {
    && 0 <= k < |servers|
    && IdString(servers[k].id) == IdString(id)
    && forall j :: 0 <= j < k ==> IdString(servers[j].id) != IdString(id)
  }

  /** The name a power handler logs: the `nombre` of the server with that `String(id)` in
      the list the handler started from, or `Servidor <id>` when there is none or it is empty. */
  function PowerName(servers: seq<ServerView>, id: Id): (nombre: string)
    ensures nombre == "Servidor " + IdString(id)
      || exists i :: 0 <= i < |servers| && IdString(servers[i].id) == IdString(id) && servers[i].nombre == nombre
    ensures (forall i :: 0 <= i < |servers| ==> IdString(servers[i].id) != IdString(id))
      ==> nombre == "Servidor " + IdString(id)
    ensures forall k :: FirstWithId(servers, id, k) ==>
      nombre == (if servers[k].nombre != "" then servers[k].nombre else "Servidor " + IdString(id))
    decreases |servers|
  {
    if servers == [] then "Servidor " + IdString(id)
    else if IdString(servers[0].id) == IdString(id) then
      (if servers[0].nombre != "" then servers[0].nombre else "Servidor " + IdString(id))
    else PowerName(servers[1..], id)
  }

  /** The name the restart handler logs: there is no fallback, a missing server prints `undefined`. */
  function RestartName(servers: seq<ServerView>, id: Id): (nombre: string)
    ensures (forall i :: 0 <= i < |servers| ==> IdString(servers[i].id) != IdString(id)) ==> nombre == "undefined"
    ensures forall k :: FirstWithId(servers, id, k) ==> nombre == servers[k].nombre
    decreases |servers|
  {
    if servers == [] then "undefined"
    else if IdString(servers[0].id) == IdString(id) then servers[0].nombre
    else RestartName(servers[1..], id)
  }

  /** The calls of a restart: power-off, and power-on (then a refresh) only once power-off succeeded. */
  function RestartCalls(id: Id, offOk: bool, onOk: bool): (calls: seq<ApiCall>)
    ensures PowerOnCall(id) in calls <==> offOk
    ensures |calls| >= 1 && calls[0] == PowerOffCall(id)
    ensures FetchServers in calls <==> offOk && onOk
  {
    [PowerOffCall(id)] + (if offOk then [PowerOnCall(id)] + (if onOk then [FetchServers] else []) else [])
  }

  /** `Panel`'s state: the server list, the event log, the per-button loading flags and
      the reset spinner. */
  class PanelState {
    var servidores: seq<ServerView>
    var eventos: seq<Event>
    var loadingBotones: map<string, bool>
    var loadingReset: bool

    constructor ()
      ensures servidores == [] && eventos == [] && loadingBotones == map[] && !loadingReset
    {
      servidores, eventos, loadingBotones, loadingReset := [], [], map[], false;
    }

    /** `cargarServidores`: adopt the fetched list; a failed fetch is only logged to the console. */
    method LoadServers(fetched: Option<seq<ServerView>>)
      modifies this`servidores
      ensures servidores == if fetched.Some? then fetched.value else old(servidores)
    {
      if fetched.Some? {
        servidores := fetched.value;
      }
    }

    /** `encenderServidor` (`turnOn`) and `apagarServidor`: mark the button loading, call the
        API, and on success refresh the list and log the event; the button is released in
        every case. */
    method SwitchPower(id: Id, turnOn: bool, hora: string, apiOk: bool, fetched: Option<seq<ServerView>>)
      returns (calls: seq<ApiCall>)
      modifies this`servidores, this`eventos, this`loadingBotones
      ensures calls == [if turnOn then PowerOnCall(id) else PowerOffCall(id)] + (if apiOk then [FetchServers] else [])
      ensures loadingBotones == old(loadingBotones)[IdString(id) := false]
      ensures apiOk ==>
        && servidores == (if fetched.Some? then fetched.value else old(servidores))
        && eventos == Logged(old(eventos), hora,
             if turnOn then PoweredOnMessage(PowerName(old(servidores), id))
             else PoweredOffMessage(PowerName(old(servidores), id)))
      ensures !apiOk ==> servidores == old(servidores) && eventos == old(eventos)
    {
      loadingBotones := loadingBotones[IdString(id) := true];
      calls := [if turnOn then PowerOnCall(id) else PowerOffCall(id)];
      if apiOk {
        var before := servidores;
        calls := calls + [FetchServers];
        LoadServers(fetched);
        var nombre := PowerName(before, id);
        eventos := Logged(eventos, hora, if turnOn then PoweredOnMessage(nombre) else PoweredOffMessage(nombre));
      }
      loadingBotones := loadingBotones[IdString(id) := false];
    }

    /** The on/off switch of a card: ignored while the card is loading, otherwise power-off
        for an online server and power-on for any other. */
    method Toggle(srv: ServerView, hora: string, apiOk: bool, fetched: Option<seq<ServerView>>)
      returns (calls: seq<ApiCall>)
      modifies this`servidores, this`eventos, this`loadingBotones
      ensures IsLoading(old(loadingBotones), srv.id) ==>
        calls == [] && servidores == old(servidores) && eventos == old(eventos)
        && loadingBotones == old(loadingBotones)
      ensures !IsLoading(old(loadingBotones), srv.id) ==>
        && calls == [ToggleCall(srv)] + (if apiOk then [FetchServers] else [])
        && loadingBotones == old(loadingBotones)[IdString(srv.id) := false]
        && (apiOk ==>
              && servidores == (if fetched.Some? then fetched.value else old(servidores))
              && eventos == Logged(old(eventos), hora,
                   if srv.estado != Online then PoweredOnMessage(PowerName(old(servidores), srv.id))
                   else PoweredOffMessage(PowerName(old(servidores), srv.id))))
        && (!apiOk ==> servidores == old(servidores) && eventos == old(eventos))
    {
      if IsLoading(loadingBotones, srv.id) {
        return [];
      }
      calls := SwitchPower(srv.id, srv.estado != Online, hora, apiOk, fetched);
    }

    /** `reiniciarServidor` on a card's restart button: show the server as restarting, log it,
        power it off, and only if that succeeded, power it on again (ten seconds later) and,
        if that succeeded, refresh and log that it is back. The button is released in every
        case. A disabled button does nothing. */
    method Restart(srv: ServerView, hora1: string, hora2: string, offOk: bool, onOk: bool,
                   fetched: Option<seq<ServerView>>) returns (calls: seq<ApiCall>)
      modifies this`servidores, this`eventos, this`loadingBotones
      ensures !RestartEnabled(srv, old(loadingBotones)) ==>
        calls == [] && servidores == old(servidores) && eventos == old(eventos)
        && loadingBotones == old(loadingBotones)
      ensures RestartEnabled(srv, old(loadingBotones)) ==>
        && calls == RestartCalls(srv.id, offOk, onOk)
        && loadingBotones == old(loadingBotones)[IdString(srv.id) := false]
        && servidores == (if offOk && onOk && fetched.Some? then fetched.value
                          else MarkRestarting(old(servidores), srv.id))
        && eventos == (if offOk && onOk
                       then RestartLog(old(eventos), hora1, hora2, RestartName(old(servidores), srv.id))
                       else Logged(old(eventos), hora1, RestartingMessage(RestartName(old(servidores), srv.id))))
    {
      if !RestartEnabled(srv, loadingBotones) {
        return [];
      }
      var id := srv.id;
      loadingBotones := loadingBotones[IdString(id) := true];
      var nombre := RestartName(servidores, id);
      var marked := MarkRestarting(servidores, id);
      servidores := marked;
      var logged := Logged(eventos, hora1, RestartingMessage(nombre));
      eventos := logged;
      calls := RestartCalls(id, offOk, onOk);
      if offOk && onOk {
        if fetched.Some? {
          servidores := fetched.value;
        }
        eventos := Logged(logged, hora2, RestoredMessage(nombre));
      }
      loadingBotones := loadingBotones[IdString(id) := false];
    }

    /** `restablecerServidores`: after confirmation, fetch the list, power on every server but
        the real machine, fetch again, adopt that list and leave only the reset event in the
        log. A failed step ends it, leaving the list and the log as they were. */
    method Reset(confirmed: bool, hora: string, data: Option<seq<ServerView>>, allOnOk: bool,
                 refreshed: Option<seq<ServerView>>) returns (calls: seq<ApiCall>)
      modifies this`servidores, this`eventos, this`loadingReset
      ensures !confirmed ==>
        calls == [] && servidores == old(servidores) && eventos == old(eventos) && loadingReset == old(loadingReset)
      ensures confirmed ==>
        && !loadingReset
        && calls == [FetchServers] + (if data.Some? then PowerOnCalls(ResetTargets(data.value))
                                                          + (if allOnOk then [FetchServers] else [])
                                      else [])
        && (if data.Some? && allOnOk && refreshed.Some?
            then servidores == refreshed.value && eventos == ResetLog(hora)
            else servidores == old(servidores) && eventos == old(eventos))
    {
      if !confirmed {
        return [];
      }
      loadingReset := true;
      calls := [FetchServers];
      if data.Some? {
        calls := calls + PowerOnCalls(ResetTargets(data.value));
        if allOnOk {
          calls := calls + [FetchServers];
          if refreshed.Some? {
            servidores := refreshed.value;
            eventos := [];
            eventos := Logged(eventos, hora, ResetMessage);
          }
        }
      }
      loadingReset := false;
    }

    /** The "Clear" button of the log. */
    method ClearEvents()
      modifies this`eventos
      ensures eventos == []
    {
      eventos := [];
    }
  }
}
