# Panel-IT, modelled in Dafny

Panel-IT is a small server-administration dashboard. An Express backend keeps a table of
five simulated servers and lists them behind a JWT bearer-token gate. The listing puts the
machine the backend runs on (`"local-pc"`) in front of them. The backend also lets clients
switch a simulated server online or offline, and registers and logs in users. A separate
client of the Hetzner cloud API powers one real VPS on, off or reboots it, and polls its
status until the VPS reaches the wanted state. The React front end has two pages:

- the control panel: a search over the server cards, on/off switches, a restart button, a
  "reset all" button and an event log with icons;
- the dashboard: three rolling charts of 30 points and a searchable server list.

This project models those behaviours and proves what they promise.

Modules, one file each:

- `Wrappers`: `Option` and `Result`.
- `Text`: the JavaScript string operations used (`toLowerCase` on ASCII, `includes`,
  `startsWith`, `split` on one character, `String(n)` and `parseInt`). Each comes with its
  reference properties. For example, `parseInt(String(n)) == n`.
- `Seqs`: `Array.prototype.filter`, with its membership, order and monotonicity lemmas.
- `Wire`: the server record as it travels in JSON, and the two ids (numeric, `"local-pc"`).
- `Hetzner` (`backend/hetzner.js`):
  - the bounded status poller, written as a loop proved against a recursive specification;
  - the three power actions, each returning the requests it sent;
  - the translation of raw status to `online`/`offline`.
- `Auth` (`backend/index.js`): the token gate and the register and login decision ladders.
- `Fleet` (`backend/index.js`):
  - the simulated table, as a class whose update method mutates it;
  - the listing;
  - the validated state update.
- `Panel` (`frontend/src/Panel.js`):
  - the search filter, restart marking, the event log and its icons, and the reset targets;
  - the page's state (`servidores`, `eventos`, `loadingBotones`, `loadingReset`) as a class
    whose handler methods update it.
- `Dashboard` (`frontend/src/DashboardPage.js`): the 30-point chart window, the charts as a
  class with a `Tick` method, and the dashboard's own search filter.

External systems are oracles passed in as parameters:

- the provider's replies are indexed by query number;
- the user store's answers, the password hash and check, and token signing and verification
  are inputs;
- the machine's readings, the clock and the random draws are inputs;
- the backend API seen from the front end is an input saying whether each call succeeded and
  what a refresh returned.

Every handler returns the requests it issued, in order, so the contracts can state what is
asked of the outside world.

## Model

| member | source | states |
|---|---|---|
| Text.IncludesIff | frontend/src/Panel.js:327-332 | `includes` holds exactly when the needle occurs at some position of the haystack |
| Text.SecondField | backend/index.js:100 | the second field of `split(" ")` is the text after the first space, up to the next space |
| Text.ParseIntString | backend/index.js:165 | `parseInt` of the decimal rendering of any integer gives that integer back |
| Text.IncludesNeedsFirstChar | frontend/src/DashboardPage.js:97-105 | a haystack lacking the needle's first character does not include it |
| Seqs.FilterMembers | frontend/src/Panel.js:326 | `filter` keeps an element exactly when it is in the input and satisfies the predicate |
| Seqs.FilterOrder | frontend/src/Panel.js:326 | `filter` keeps the input order |
| Seqs.FilterWeaker | frontend/src/DashboardPage.js:97-105 | filtering with a weaker predicate keeps a supersequence |
| Wire.NumIsNotLocalPc | frontend/src/Panel.js:168 | no numeric id renders as `"local-pc"`, so `String(id)` comparison singles out the real machine |
| Hetzner.MaxTries | backend/hetzner.js:28 | `ceil(timeout / 2000)`: the least number of 2-second intervals covering the timeout |
| Hetzner.PollFrom | backend/hetzner.js:30-37 | the poller makes between `i` and `tries` queries, and a timeout uses the whole budget |
| Hetzner.AwaitState | backend/hetzner.js:26-38 | the loop returns what the recursive poller specification returns |
| Hetzner.PollStopsAtFirstMatch | backend/hetzner.js:30-32 | when query `k` is the first one in the wanted state and within budget, the poller returns after `k+1` queries |
| Hetzner.PollTimesOut | backend/hetzner.js:30-37 | when no query in the budget shows the wanted state, the poller throws the timeout after the whole budget |
| Hetzner.PollSuccessWitness | backend/hetzner.js:30-32 | a normal return means the last query saw the wanted state and all earlier ones another |
| Hetzner.DefaultBudget | backend/hetzner.js:26-28 | the default timeout allows 8 queries; off ×3 then running returns after 4 |
| Hetzner.PowerOnVps | backend/hetzner.js:49-70 | power-on is posted first; the poll for `running` runs only if the post is accepted; success iff the poll succeeds; every failure gives one message; at most 9 requests |
| Hetzner.PowerOffVps | backend/hetzner.js:73-94 | as for power-on, with `poweroff`, `off` and its own message |
| Hetzner.RebootVps | backend/hetzner.js:97-115 | one reboot post and no status query; its data on success, its own message on failure |
| Hetzner.EstadoOf | backend/hetzner.js:130 | the raw status maps to exactly two values, with online iff `running` |
| Hetzner.CurrentStatus | backend/hetzner.js:121-153 | a failed query gives its message; otherwise the IP and mapped state; zeroes when offline, sampled CPU and `/ 15870.0 MB` RAM when online |
| Hetzner.PowerOnShowsOnline | backend/hetzner.js:60 | after a successful power-on, the reply the poller stopped at reads as online |
| Auth.VerifyToken | backend/index.js:93-109 | a missing header or one without `Bearer ` gives 401 "Token no proporcionado"; otherwise the request passes iff the second field verifies, carrying its claims; a token that fails verification gives 401 "Token inválido o expirado" |
| Auth.Register | backend/index.js:27-54 | missing fields give 400 with no store access; the lookup comes first; a failed lookup gives 500 "Error en la base de datos"; an existing user gives 400 "Usuario ya registrado"; the insert happens iff the fields are present and the user is new; 201 iff also the insert succeeds, else 500 "Error al registrar usuario" |
| Auth.Login | backend/index.js:57-89 | missing fields give 400 "Faltan credenciales" with no store access; a failed lookup gives 500 "Error en la base de datos"; 401 "Usuario no encontrado" or "Contraseña incorrecta" iff the user is unknown or the password does not match; a token iff the user exists and the password matches, signed over their email and role |
| Auth.RegisterThenLogin | backend/index.js:44-84 | the hash a registration stores is the one a later login checks, so registering then logging in issues a token |
| Fleet.ExternalIp | backend/index.js:140 | the IPv4 of the first interface that has one and is not internal; the loopback address when none qualifies |
| Fleet.WithMetrics | backend/index.js:124-128 | a listed simulated server keeps its id, name, IP, state and services, with zero metrics unless online |
| Fleet.ListServers | backend/index.js:122-160 | the real machine first, online iff its readings were available, else the fallback record; then the table in order with its fields copied; zero metrics when not online; when online, the real machine's IP is `ExternalIp` of its interfaces, its services are Hosting, Node.js and React, and its CPU and RAM texts are built from the readings |
| Fleet.FindById | backend/index.js:168 | the first server with the id, or none |
| Fleet.UpdateEstado | backend/index.js:164-179 | 404 iff no server has the parsed id; 400 iff found but the state is not online/offline; only 200 changes the table, and then only the target's state; the replies are "Servidor no encontrado", "Estado inválido" and "Estado del servidor <id> actualizado a <estado>" |
| Fleet.UpdateIdempotent | backend/index.js:164-179 | repeating an update gives the same reply and table |
| Fleet.LocalPcIsNotFound | backend/index.js:165-170 | `"local-pc"` parses to `NaN`, so updating it is always 404 and changes nothing |
| Fleet.TargetOfIdString | backend/index.js:165-168 | `parseInt(String(id))` finds the server with that id again |
| Fleet.SimulatedFleet.constructor | backend/index.js:112-118 | the table starts as the five offline servers |
| Fleet.SimulatedFleet.List | backend/index.js:122 | the gate's own 401 reply iff it refuses; otherwise the listing of the current table |
| Fleet.SimulatedFleet.SetEstado | backend/index.js:164-179 | a gate refusal leaves the table; otherwise the reply and new table are those of `UpdateEstado`; only states ever change, and they stay online/offline |
| Panel.VisibleSpec | frontend/src/Panel.js:326-334 | a card is shown iff its server matches the lower-cased query in name, IP, state or a service, in list order |
| Panel.EmptyQueryShowsAll | frontend/src/Panel.js:326-334 | the empty query shows every server |
| Panel.MarkRestarting | frontend/src/Panel.js:168-170 | servers whose `String(id)` is the target's show `Reiniciando...`; nothing else changes |
| Panel.MarkingSparesLocalPc | frontend/src/Panel.js:168-170 | restarting a simulated server never marks the real machine |
| Panel.ToggleCall | frontend/src/Panel.js:451-456 | the switch powers off iff the server is online, else powers on |
| Panel.MarkedServerControls | frontend/src/Panel.js:452-475 | a server marked as restarting has its restart button disabled, and its switch would power it on |
| Panel.LogNewestFirst | frontend/src/Panel.js:113-120 | events logged one by one read newest first, in front of the unchanged earlier log |
| Panel.EventIcon | frontend/src/Panel.js:536-545 | the first of the four keywords the message contains decides the icon; none gives no icon |
| Panel.HandlerEventIcons | frontend/src/Panel.js:536-545 | a "back online" event always gets the check mark, and every power and restart handler's event gets some icon |
| Panel.PowerName | frontend/src/Panel.js:129-130 | the logged name is the name of a server with that `String(id)`, or `Servidor <id>`, which is always used when no server has that id; with one, the first such server's name, or `Servidor <id>` when that name is empty |
| Panel.RestartName | frontend/src/Panel.js:163-165 | the first server with that `String(id)` gives the name; with none the name is `undefined` |
| Panel.RestartCalls | frontend/src/Panel.js:175-184 | a restart powers off first; it powers on iff that succeeded, and refreshes iff both did |
| Panel.ResetTargetsSpec | frontend/src/Panel.js:213-216 | a reset powers on exactly the listed servers other than `local-pc`, in order, including every simulated one |
| Panel.ResetLog | frontend/src/Panel.js:222-225 | the log a reset leaves: only its own event |
| Panel.ResetKeepsHistory | frontend/src/Panel.js:222-225 | as written, a reset with any earlier event keeps all of it (see Findings) |
| Panel.RestartLog | frontend/src/Panel.js:172-181 | the log a completed restart leaves: its two events in front of the earlier log |
| Panel.RestartLosesEvent | frontend/src/Panel.js:172-181 | as written, a completed restart loses its "restarting" event (see Findings) |
| Panel.PanelState.constructor | frontend/src/Panel.js:48-66 | empty list, empty log, no loading flags |
| Panel.PanelState.LoadServers | frontend/src/Panel.js:78-85 | a successful fetch replaces the list; a failed one keeps it |
| Panel.PanelState.SwitchPower | frontend/src/Panel.js:123-158 | one power call; on success a refresh and the event named from the list the handler started from; the button's flag is released in every case |
| Panel.PanelState.Toggle | frontend/src/Panel.js:451-457 | a loading card ignores the switch; otherwise the call is `ToggleCall`, followed by a refresh iff it succeeded, the flag ends released, and on success the list is the refreshed one and a powered-on/off event naming the server is logged, while on failure list and events are unchanged |
| Panel.PanelState.Restart | frontend/src/Panel.js:161-195 | a disabled button does nothing; otherwise the calls are `RestartCalls`, the list is marked (or refreshed after success), the log is `RestartLog` on success, and the flag ends released |
| Panel.PanelState.Reset | frontend/src/Panel.js:198-234 | nothing without confirmation; otherwise fetch, power on the reset targets, fetch again; on full success the refreshed list and `ResetLog`, otherwise list and log unchanged; the spinner ends off |
| Panel.PanelState.ClearEvents | frontend/src/Panel.js:518-522 | the Clear button empties the log |
| Dashboard.Window | frontend/src/DashboardPage.js:58-63 | a chart grows by one up to 30 points and its newest point is the new sample |
| Dashboard.WindowShifts | frontend/src/DashboardPage.js:58-63 | shifting the last 30 points of a history gives the last 30 points of the longer history |
| Dashboard.SeriesIsLast30 | frontend/src/DashboardPage.js:51-63 | a chart fed any history shows exactly its last 30 points, oldest first |
| Dashboard.TimeLabel | frontend/src/DashboardPage.js:52 | the label is a prefix of the clock text of exactly min(length, 8) characters |
| Dashboard.MetricCharts.constructor | frontend/src/DashboardPage.js:28-30 | three empty charts |
| Dashboard.MetricCharts.Tick | frontend/src/DashboardPage.js:51-63 | each chart takes one window step with the shared label; the charts stay the last 30 samples, aligned and in range |
| Dashboard.TickKeepsCharts | frontend/src/DashboardPage.js:51-63 | one window step per chart with a shared label and in-range values keeps each chart the last 30 samples, aligned and in range |
| Dashboard.ChartsAligned | frontend/src/DashboardPage.js:58-63 | the three charts have equal length, at most 30, and the same label at each position |
| Dashboard.VisibleSpec | frontend/src/DashboardPage.js:97-105 | a server is listed iff it matches in name, IP or a service, in list order, and never when the panel would hide it |
| Dashboard.EmptyQueryShowsAll | frontend/src/DashboardPage.js:97-105 | the empty query lists every server |
| Dashboard.StateIsNotSearched | frontend/src/DashboardPage.js:97-105 | unlike the panel, the dashboard does not search the state: `offline` finds the offline real machine on the panel only |
| Dashboard.StateIgnored | frontend/src/DashboardPage.js:97-105 | changing a server's state never changes whether the dashboard lists it |
| Dashboard.ServerList.Load | frontend/src/DashboardPage.js:40-47 | the list is requested iff there is a token; a successful reply replaces it |

## Left out

- Network I/O, HTTP framing, CORS, the port binding, `localStorage` persistence and the toast notifications are left out. Handlers take the outside world's answers as inputs.
- JWT encoding and signature checking, bcrypt hashing and the SQLite user store are oracles. Token expiry ("2h") is part of the verification oracle.
- The random CPU and RAM figures and the machine's own readings are inputs. Their number formatting (`toFixed`) is not modelled: they arrive as strings, or as tenths for the charts.
- Hetzner.AwaitState: the 2-second sleep between queries takes no time in the model. Elapsed time is counted in queries.
- Text.Lower: lower-cases ASCII letters only. JavaScript's `toLowerCase` also folds the rest of Unicode.
- Text.ParseInt: models `parseInt` without a radix for integer results. Numbers beyond 2^53 do not lose precision.
- Auth.Register and Auth.Login: fields arrive as optional strings. Non-string JSON values in the body are not modelled.
- Panel.PanelState.Restart: the ten-second wait between power-off and power-on is not modelled.
- Panel.PanelState.Restart: interleaving with other handlers or the 5-second auto-refresh during that wait is not modelled.
- Panel.PanelState: the 5-second auto-refresh timer is `LoadServers`, called by whoever drives the model. The events restored from storage on mount are not modelled.
- Panel.PanelState.Reset: the power-on calls are issued together (`Promise.all`). The model records them all and takes one input for whether all succeeded.
- The `console.log`/`console.error` diagnostics in every handler are left out: they change no state and no reply.
- Dashboard: the PDF report (`html2canvas`, `jsPDF`) and the chart rendering are left out.
- The login, register, settings and terminal pages, the search context and the API wrapper module are not part of this model. The routes' HTTP verbs are not modelled either.

## Findings

Both rows come from one cause. The panel's handlers prepend an event to the `eventos` array
captured when the handler was created (a stale React closure). They do not prepend to the
current log. The class methods use the corrected behaviour.

| source | as written | input that shows it | evidently intended | confidence | as-written member | corrected member |
|---|---|---|---|---|---|---|
| frontend/src/Panel.js:222-225 | `setEventos([])` is followed by a prepend to the captured log, which overrides the clearing | reset with one earlier event in the log: the log keeps it behind the reset event | the history is cleared, and only the reset event remains | high, not executed | Panel.ResetKeepsHistory | Panel.ResetLog |
| frontend/src/Panel.js:172-181 | the "back online" event is prepended, in the timeout callback, to the log captured before the "restarting" event was added | restart of an online server, with both power calls succeeding: the "se está reiniciando" event disappears | both events are kept, newest first | high, not executed | Panel.RestartLosesEvent | Panel.RestartLog |
