/** The client of the cloud provider's API that drives the one real VPS: a bounded
    status poller, the power-on / power-off / reboot actions, and the translation of
    the provider's raw status into the dashboard's two-valued status.

    The provider is an oracle. Query number `i` (counting from 0) of the server's
    status returns `replies(i)`; a power action returns `post`. Every operation also
    returns the requests it sent, in order, so that what is asked of the provider and
    when can be stated. Sleeping between queries takes no time in the model. */
module Hetzner {
  import opened Wrappers
  import opened Wire

  /** Milliseconds between two status queries. */
  const Interval := 2000
  /** The timeout the power actions wait with, in milliseconds. */
  const DefaultTimeout := 15000

  /** What `GET /servers/{id}` yields: the server's raw status and public IPv4, or a failed request. */
  datatype StatusReply = Server(status: string, ip: string) | RequestFailed

  /** What `POST /servers/{id}/actions/{action}` yields: the acknowledgement body, or a failed request. */
  datatype ActionReply = Accepted(data: string) | Rejected

  datatype Action = PowerOn | PowerOff | Reboot

  /** A request sent to the provider. */
  datatype Call = GetServer | PostAction(action: Action)

  /** Why an operation threw: the poller's timeout, a failed status query, or the
      single message a power action reports whatever went wrong inside it. */
  datatype Failure = Timeout(desired: string) | QueryFailed | Failed(message: string)

  /** `Math.ceil(timeout / interval)` as a loop bound: the least number of intervals that
      covers the timeout, and 0 (no query at all) when the timeout is not positive. */
  function MaxTries(timeout: int): (n: nat)
    ensures n * Interval >= timeout
    ensures n > 0 ==> (n - 1) * Interval < timeout
  {
    if timeout <= 0 then 0 else (timeout + Interval - 1) / Interval
  }

  /** `n` status queries. */
  function Gets(n: nat): (calls: seq<Call>)
    ensures |calls| == n && forall i :: 0 <= i < n ==> calls[i] == GetServer
  {
    seq(n, _ => GetServer)
  }

  /** What a run of the poller amounts to: how many status queries it made, and whether
      it returned or threw. */
  datatype Poll = Poll(queries: nat, outcome: Result<(), Failure>)

  /** The poller from query `i` on, with `tries` queries allowed in all. */
  function PollFrom(replies: nat -> StatusReply, desired: string, i: nat, tries: nat): (p: Poll)
    requires i <= tries
    ensures i <= p.queries <= tries
    ensures p.outcome == Err(Timeout(desired)) ==> p.queries == tries
    decreases tries - i
  {
    if i == tries then Poll(i, Err(Timeout(desired)))
    else match replies(i)
      case RequestFailed => Poll(i + 1, Err(QueryFailed))
      case Server(status, _) =>
        if status == desired then Poll(i + 1, Ok(()))
        else PollFrom(replies, desired, i + 1, tries)
  }

  /** The reply of query `j` shows the server in another state than `desired`. */
  predicate Mismatch(reply: StatusReply, desired: string) {
    reply.Server? && reply.status != desired
  }

  /** `esperarEstadoVPS(desired, timeout)`: query the status at most `MaxTries(timeout)`
      times, return at the first reply in the desired state, throw a timeout when none
      is. A failed query throws at once (nothing in the loop catches it). */
  method AwaitState(desired: string, timeout: int, replies: nat -> StatusReply) returns (p: Poll)
    ensures p == PollFrom(replies, desired, 0, MaxTries(timeout))
  {
    var maxTries := MaxTries(timeout);
    var i := 0;
    while i < maxTries
      invariant i <= maxTries
      invariant PollFrom(replies, desired, i, maxTries) == PollFrom(replies, desired, 0, maxTries)
    {
      var actual := replies(i);
      if actual.RequestFailed? {
        return Poll(i + 1, Err(QueryFailed));
      }
      if actual.status == desired {
        return Poll(i + 1, Ok(()));
      }
      i := i + 1;
    }
    return Poll(maxTries, Err(Timeout(desired)));
  }

  /** If query `k` is the first whose reply shows the desired state and it is within the
      budget, the poller returns normally after exactly `k + 1` queries. */
  lemma {:induction false} PollStopsAtFirstMatch(replies: nat -> StatusReply, desired: string, tries: nat, k: nat, i: nat)
    requires i <= k < tries
    requires replies(k).Server? && replies(k).status == desired
    requires forall j :: i <= j < k ==> Mismatch(replies(j), desired)
    ensures PollFrom(replies, desired, i, tries) == Poll(k + 1, Ok(()))
    decreases k - i
  {
    if i < k {
      assert Mismatch(replies(i), desired);
      PollStopsAtFirstMatch(replies, desired, tries, k, i + 1);
    }
  }

  /** If none of the queries in the budget shows the desired state, the poller throws the
      timeout after using the whole budget, and never reports success. */
  lemma {:induction false} PollTimesOut(replies: nat -> StatusReply, desired: string, tries: nat, i: nat)
    requires i <= tries
    requires forall j :: i <= j < tries ==> Mismatch(replies(j), desired)
    ensures PollFrom(replies, desired, i, tries) == Poll(tries, Err(Timeout(desired)))
    decreases tries - i
  {
    if i < tries {
      assert Mismatch(replies(i), desired);
      PollTimesOut(replies, desired, tries, i + 1);
    }
  }

  /** Conversely, when the poller returns normally, its last query saw the desired state
      and every query before it saw another state. */
  lemma {:induction false} PollSuccessWitness(replies: nat -> StatusReply, desired: string, tries: nat, i: nat)
    requires i <= tries
    requires PollFrom(replies, desired, i, tries).outcome.Ok?
    ensures var q := PollFrom(replies, desired, i, tries).queries;
      i < q && replies(q - 1).Server? && replies(q - 1).status == desired
      && forall j :: i <= j < q - 1 ==> Mismatch(replies(j), desired)
    decreases tries - i
  {
    if replies(i).Server? && replies(i).status != desired {
      PollSuccessWitness(replies, desired, tries, i + 1);
    }
  }

  /** With the default timeout the poller makes at most 8 queries, and a provider that
      reports `"off"` three times and `"running"` the fourth time lets it return after
      exactly 4 queries. */
  lemma DefaultBudget(replies: nat -> StatusReply, ip: string)
    requires forall j :: 0 <= j < 3 ==> replies(j) == Server("off", ip)
    requires replies(3) == Server("running", ip)
    ensures MaxTries(DefaultTimeout) == 8
    ensures PollFrom(replies, "running", 0, MaxTries(DefaultTimeout)) == Poll(4, Ok(()))
  {
    PollStopsAtFirstMatch(replies, "running", 8, 3, 0);
  }

  /** `encenderVPS`: send the power-on action; only once it is acknowledged, wait for the
      raw status `"running"`. A failure of either step surfaces as one and the same error. */
  method PowerOnVps(post: ActionReply, replies: nat -> StatusReply) returns (r: Result<string, Failure>, sent: seq<Call>)
    ensures post.Rejected? ==> r == Err(Failed("No se pudo encender el VPS real")) && sent == [PostAction(PowerOn)]
    ensures post.Accepted? ==>
      var p := PollFrom(replies, "running", 0, MaxTries(DefaultTimeout));
      && sent == [PostAction(PowerOn)] + Gets(p.queries)
      && r == if p.outcome.Ok? then Ok(post.data) else Err(Failed("No se pudo encender el VPS real"))
    ensures |sent| <= 9
  {
    sent := [PostAction(PowerOn)];
    if post.Rejected? {
      return Err(Failed("No se pudo encender el VPS real")), sent;
    }
    var p := AwaitState("running", DefaultTimeout, replies);
    sent := sent + Gets(p.queries);
    if p.outcome.Err? {
      return Err(Failed("No se pudo encender el VPS real")), sent;
    }
    r := Ok(post.data);
  }

  /** `apagarVPS`: the same contract as `PowerOnVps`, with the power-off action, the raw
      status `"off"` and its own error. */
  method PowerOffVps(post: ActionReply, replies: nat -> StatusReply) returns (r: Result<string, Failure>, sent: seq<Call>)
    ensures post.Rejected? ==> r == Err(Failed("No se pudo apagar el VPS real")) && sent == [PostAction(PowerOff)]
    ensures post.Accepted? ==>
      var p := PollFrom(replies, "off", 0, MaxTries(DefaultTimeout));
      && sent == [PostAction(PowerOff)] + Gets(p.queries)
      && r == if p.outcome.Ok? then Ok(post.data) else Err(Failed("No se pudo apagar el VPS real"))
    ensures |sent| <= 9
  {
    sent := [PostAction(PowerOff)];
    if post.Rejected? {
      return Err(Failed("No se pudo apagar el VPS real")), sent;
    }
    var p := AwaitState("off", DefaultTimeout, replies);
    sent := sent + Gets(p.queries);
    if p.outcome.Err? {
      return Err(Failed("No se pudo apagar el VPS real")), sent;
    }
    r := Ok(post.data);
  }

  /** `reiniciarVPS`: one reboot action and no status query at all. */
  method RebootVps(post: ActionReply) returns (r: Result<string, Failure>, sent: seq<Call>)
    ensures sent == [PostAction(Reboot)]
    ensures r.Ok? <==> post.Accepted?
    ensures r.Ok? ==> r.value == post.data
    ensures r.Err? ==> r.error == Failed("No se pudo reiniciar el VPS real")
  {
    sent := [PostAction(Reboot)];
    if post.Rejected? {
      return Err(Failed("No se pudo reiniciar el VPS real")), sent;
    }
    r := Ok(post.data);
  }

  /** What `obtenerEstadoVPS` returns for the panel. */
  datatype VpsStatus = VpsStatus(estado: string, ip: string, cpu: string, ram: string)

  /** The boundary between the provider's raw status and the dashboard's status: total and
      two-valued, `"running"` is online and every other string is offline. */
  function EstadoOf(raw: string): (e: string)
    ensures e == Online || e == Offline
    ensures e == Online <==> raw == "running"
  {
    if raw == "running" then Online else Offline
  }

  /** `obtenerEstadoVPS`: one status query. An online server shows the sampled CPU load and
      memory use (the source draws them at random); an offline one shows zeroes. */
  function CurrentStatus(reply: StatusReply, cpuSample: string, ramSample: string): (r: Result<VpsStatus, Failure>)
    ensures r.Err? <==> reply.RequestFailed?
    ensures r.Err? ==> r.error == Failed("No se pudo obtener el estado del VPS")
    ensures r.Ok? ==> r.value.ip == reply.ip && r.value.estado == EstadoOf(reply.status)
    ensures r.Ok? && r.value.estado == Offline ==> r.value.cpu == "0%" && r.value.ram == "0 MB"
    ensures r.Ok? && r.value.estado == Online ==>
      r.value.cpu == cpuSample + "%" && r.value.ram == ramSample + " / 15870.0 MB"
  {
    match reply
    case RequestFailed => Err(Failed("No se pudo obtener el estado del VPS"))
    case Server(status, ip) =>
      var estado := EstadoOf(status);
      var cpu := if estado == Online then cpuSample + "%" else "0%";
      var ram := if estado == Online then ramSample + " / 15870.0 MB" else "0 MB";
      Ok(VpsStatus(estado, ip, cpu, ram))
  }

  /** After a successful power-on, the reply the poller stopped at, read as a status,
      shows the server online. */
  lemma PowerOnShowsOnline(replies: nat -> StatusReply, cpuSample: string, ramSample: string)
    requires PollFrom(replies, "running", 0, MaxTries(DefaultTimeout)).outcome.Ok?
    ensures var q := PollFrom(replies, "running", 0, MaxTries(DefaultTimeout)).queries;
      q >= 1 && CurrentStatus(replies(q - 1), cpuSample, ramSample).Ok?
      && CurrentStatus(replies(q - 1), cpuSample, ramSample).value.estado == Online
  {
    PollSuccessWitness(replies, "running", MaxTries(DefaultTimeout), 0);
  }
}
