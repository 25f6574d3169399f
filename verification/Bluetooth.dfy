/**
 The Bluetooth tables: the host's beacon and its exchanges, the joiner's scan and its one
 exchange, and the hosts seen nearby. Readiness, platform events, exchange outcomes and
 clock readings arrive as inputs; platform calls and application events leave as outputs.
 Times are nanoseconds.
 */
module Bluetooth {
  import opened Common

  const SECOND: nat := 1_000_000_000
  const EXCHANGE_BOUND: nat := 30 * SECOND
  const GONE_AFTER: nat := 30 * SECOND
  const CENTRAL_RETRY: nat := 30 * SECOND
  const MAX_EXCHANGES: nat := 4

  type Device = nat
  type HostId = nat
  type Prefix = Bytes

  datatype Standing = Unsupported | NotPermitted | Off | Ready

  datatype Beacon = BeaconOff | BeaconFailed | Advertising(prefix: Prefix, exchanges: map<Device, nat>)

  datatype Central = Absent(retry: Option<nat>) | Starting | Running

  /** `streaming` once the stream runs, `reading` while its reader stands. */
  datatype Joiner = Idle | Scanning | Exchanging(host: HostId, streaming: bool, reading: bool, deadline: nat)

  datatype Record = Record(prefix: Option<Prefix>, lastSeen: nat, rssi: Option<int>, tried: bool)

  type Hosts = map<HostId, Record>

  datatype Machine = Machine(
    scan: bool, autojoin: bool, hasStarter: bool,
    beacon: Beacon, central: Central, joiner: Joiner, hosts: Hosts)

  datatype Output =
    | Advertise(prefix: Prefix)
    | StopAdvertising
    | DisconnectJoiners(devices: set<Device>)
    | StartCentral
    | StartScan
    | StopScan
    | Connect(host: HostId)
    | DisconnectHost(host: HostId)
    | HostNearby(host: HostId)
    | HostsGone(hosts: set<HostId>)

  type Outcome = (Machine, seq<Output>)

  function Then(o: Outcome, next: Outcome): Outcome { (next.0, o.1 + next.1) }

  // ---- the central ----

  function StartCentralNow(m: Machine): Outcome {
    if m.hasStarter then (m.(central := Starting), [StartCentral]) else (m, [])
  }

  /** What a look at the start's answer finds. */
  datatype StartLook = NotYet | Started | StartFailed

  function TickCentral(m: Machine, s: Standing, look: StartLook, now: nat): Outcome {
    var due := s.Ready? && m.central.Absent? && (m.central.retry.None? || now >= m.central.retry.value);
    var o := if due then StartCentralNow(m) else (m, []);
    if !o.0.central.Starting? then o
    else match look
      case NotYet => o
      case Started => (o.0.(central := Running), o.1)
      case StartFailed => (o.0.(central := Absent(Some(now + CENTRAL_RETRY))), o.1)
  }

  // ---- the beacon ----

  datatype JoinerEvent =
    | JoinerConnected(device: Device)
    | JoinerChunk(device: Device, readerGone: bool)
    | JoinerDisconnected(device: Device)
    | PlatformFailed

  function EndOne(m: Machine, device: Device): Outcome
    requires m.beacon.Advertising?
  {
    if device in m.beacon.exchanges then
      (m.(beacon := m.beacon.(exchanges := m.beacon.exchanges - {device})), [DisconnectJoiners({device})])
    else (m, [])
  }

  /** One event of the service. */
  function HandleJoinerEvent(m: Machine, e: JoinerEvent, hosting: bool, now: nat): Outcome {
    match e
    case JoinerConnected(device) =>
      if m.beacon.Advertising? && |m.beacon.exchanges| < MAX_EXCHANGES && device !in m.beacon.exchanges && hosting then
        (m.(beacon := m.beacon.(exchanges := m.beacon.exchanges[device := now + EXCHANGE_BOUND])), [])
      else (m, [DisconnectJoiners({device})])
    case JoinerChunk(device, readerGone) => if m.beacon.Advertising? && readerGone then EndOne(m, device) else (m, [])
    case JoinerDisconnected(device) => if m.beacon.Advertising? then EndOne(m, device) else (m, [])
    case PlatformFailed => if m.beacon.Advertising? then (m.(beacon := BeaconFailed), [DisconnectJoiners(m.beacon.exchanges.Keys)]) else (m, [])
  }

  function HandleJoinerEvents(m: Machine, events: seq<JoinerEvent>, hosting: bool, now: nat): Outcome
    decreases |events|
  {
    if events == [] then (m, [])
    else
      var o := HandleJoinerEvent(m, events[0], hosting, now);
      Then(o, HandleJoinerEvents(o.0, events[1..], hosting, now))
  }

  /** The exchanges still running after a look: neither finished nor at their bound. */
  function Remaining(exchanges: map<Device, nat>, finished: set<Device>, now: nat): (r: map<Device, nat>)
    ensures forall d :: d in r <==> d in exchanges && d !in finished && now < exchanges[d]
    ensures forall d :: d in r ==> r[d] == exchanges[d]
    ensures |r| <= |exchanges|
  {
    var r := map d | d in exchanges && d !in finished && now < exchanges[d] :: exchanges[d];
    assert r.Keys <= exchanges.Keys;
    FewerKeys(r.Keys, exchanges.Keys);
    assert |r| == |r.Keys| && |exchanges| == |exchanges.Keys|;
    r
  }

  lemma FewerKeys(a: set<Device>, b: set<Device>)
    requires a <= b
    ensures |a| <= |b|
  {
    assert b == a + (b - a);
  }

  /** The beacon's own row, and whether the look ended there. */
  function TickBeacon(m: Machine, ready: bool, serving: Option<Prefix>, startOk: bool, finished: set<Device>, now: nat): (Outcome, bool) {
    match m.beacon
    case Advertising(prefix, exchanges) =>
      if !ready || serving.None? then ((m.(beacon := BeaconOff), [StopAdvertising]), true)
      else
        var renewed := serving.value != prefix && startOk;
        var remaining := Remaining(exchanges, finished, now);
        ((m.(beacon := Advertising(if renewed then serving.value else prefix, remaining)),
          (if renewed then [Advertise(serving.value)] else []) + [DisconnectJoiners(exchanges.Keys - remaining.Keys)]), false)
    case BeaconFailed =>
      if ready && serving.Some? then
        (if startOk then (m.(beacon := Advertising(serving.value, map[])), [Advertise(serving.value)]) else (m, []), false)
      else ((m.(beacon := BeaconOff), [StopAdvertising]), false)
    case BeaconOff =>
      (if ready && serving.Some? && startOk then (m.(beacon := Advertising(serving.value, map[])), [Advertise(serving.value)]) else (m, []), false)
  }

  /** What the host's look reads: `startOk` whether the platform advertises, `finished` the exchanges with an outcome. */
  datatype HostLook = HostLook(hosting: bool, startOk: bool, finished: set<Device>, events: seq<JoinerEvent>, now: nat)

  function TickHost(m: Machine, s: Standing, serving: Option<Prefix>, i: HostLook): Outcome {
    var (o, ended) := TickBeacon(m, s.Ready? && i.hosting, serving, i.startOk, i.finished, i.now);
    if ended then o else Then(o, HandleJoinerEvents(o.0, i.events, i.hosting, i.now))
  }

  // ---- the joiner ----

  /** A beacon seen: its prefix where the advertisement carries one. */
  datatype HostEvent =
    | Seen(host: HostId, prefix: Option<Prefix>, rssi: Option<int>)
    | NotABeacon
    | HostConnected(host: HostId)
    | HostChunk(host: HostId, taken: bool)
    | HostDisconnected(host: HostId)

  function BeginExchange(m: Machine, host: HostId, now: nat): Outcome {
    (m.(joiner := Exchanging(host, false, false, now + EXCHANGE_BOUND)),
     (if m.joiner.Scanning? && m.central.Running? then [StopScan] else [])
     + (if m.central.Running? then [Connect(host)] else []))
  }

  function MarkTried(hosts: Hosts, host: HostId): Hosts {
    if host in hosts then hosts[host := hosts[host].(tried := true)] else hosts
  }

  /** The exchange ends, with its offer or marking its host tried. */
  function EndExchange(m: Machine, ok: bool): Outcome {
    if !m.joiner.Exchanging? then (m, [])
    else
      (m.(joiner := Idle, hosts := if ok then m.hosts else MarkTried(m.hosts, m.joiner.host)),
       if m.central.Running? then [DisconnectHost(m.joiner.host)] else [])
  }

  function SeeHost(m: Machine, host: HostId, prefix: Option<Prefix>, rssi: Option<int>, now: nat): Outcome {
    if host !in m.hosts then (m.(hosts := m.hosts[host := Record(prefix, now, rssi, false)]), [HostNearby(host)])
    else if m.hosts[host].prefix == prefix then
      (m.(hosts := m.hosts[host := m.hosts[host].(lastSeen := now, rssi := rssi)]), [])
    else (m.(hosts := m.hosts[host := Record(prefix, now, rssi, false)]), [HostNearby(host)])
  }

  predicate ExchangesWith(m: Machine, host: HostId) { m.joiner.Exchanging? && m.joiner.host == host }

  function HandleHostEvent(m: Machine, e: HostEvent, now: nat): Outcome {
    match e
    case Seen(host, prefix, rssi) => SeeHost(m, host, prefix, rssi, now)
    case NotABeacon => (m, [])
    case HostConnected(host) =>
      if ExchangesWith(m, host) then (m.(joiner := m.joiner.(streaming := true, reading := true)), [])
      else (m, if m.central.Running? then [DisconnectHost(host)] else [])
    case HostChunk(host, taken) => if ExchangesWith(m, host) && !(m.joiner.reading && taken) then EndExchange(m, false) else (m, [])
    case HostDisconnected(host) =>
      if !ExchangesWith(m, host) then (m, [])
      else if m.joiner.streaming then (m.(joiner := m.joiner.(reading := false)), [])
      else EndExchange(m, false)
  }

  function HandleHostEvents(m: Machine, events: seq<HostEvent>, now: nat): Outcome
    decreases |events|
  {
    if events == [] then (m, [])
    else
      var o := HandleHostEvent(m, events[0], now);
      Then(o, HandleHostEvents(o.0, events[1..], now))
  }

  /** The hosts whose beacon has gone unseen too long. */
  function Unseen(hosts: Hosts, now: nat): set<HostId> { set h | h in hosts && now >= hosts[h].lastSeen + GONE_AFTER }

  predicate Untried(hosts: Hosts, h: HostId) { h in hosts && !hosts[h].tried }

  function Strength(r: Record): int { if r.rssi.Some? then r.rssi.value else -32_768 }

  /** Among the untried hosts none is heard louder. */
  ghost predicate IsStrongest(hosts: Hosts, h: HostId) {
    Untried(hosts, h) && forall k :: Untried(hosts, k) ==> Strength(hosts[k]) <= Strength(hosts[h])
  }

  /**
   What the joiner's look reads: `choice` is autojoin's pick, `outcome` what the running
   exchange's stream has answered, `writeFailed` whether the central refused a chunk.
   */
  datatype JoinerLook = JoinerLook(
    joined: bool, events: seq<HostEvent>, choice: Option<HostId>, writeFailed: bool, outcome: Option<bool>, now: nat)

  predicate ShouldScan(m: Machine, s: Standing, serving: bool, joined: bool) {
    m.scan && serving && !joined && s.Ready? && m.central.Running?
  }

  function TickScan(m: Machine, should: bool): Outcome {
    if m.joiner.Idle? && should then (m.(joiner := Scanning), [StartScan])
    else if m.joiner.Scanning? && !should then
      (m.(joiner := Idle, hosts := map[]), (if m.central.Running? then [StopScan] else []) + [HostsGone(m.hosts.Keys)])
    else (m, [])
  }

  function TickReadiness(m: Machine, s: Standing): Outcome { if !s.Ready? then EndExchange(m, false) else (m, []) }

  function TickGone(m: Machine, now: nat): Outcome {
    (m.(hosts := m.hosts - Unseen(m.hosts, now)), [HostsGone(Unseen(m.hosts, now))])
  }

  function TickChoice(m: Machine, should: bool, choice: Option<HostId>, now: nat): Outcome {
    if m.autojoin && should && m.joiner.Scanning? && choice.Some? then BeginExchange(m, choice.value, now) else (m, [])
  }

  /** The exchange's own end: a refused write, an outcome, or its bound once the stream runs. */
  function TickEnd(m: Machine, i: JoinerLook): Outcome {
    if !m.joiner.Exchanging? then (m, [])
    else if i.writeFailed && m.joiner.streaming then EndExchange(m, false)
    else if !m.joiner.streaming then (m, [])
    else if i.outcome.Some? then EndExchange(m, i.outcome.value)
    else if i.now >= m.joiner.deadline then EndExchange(m, false)
    else (m, [])
  }

  /** The scan's row, then readiness, then the hosts unseen. */
  function TickFirst(m: Machine, s: Standing, should: bool, now: nat): Outcome {
    var a := TickScan(m, should);
    var b := Then(a, TickReadiness(a.0, s));
    Then(b, TickGone(b.0, now))
  }

  function Hear(m: Machine, events: seq<HostEvent>, now: nat): Outcome {
    if m.central.Running? then HandleHostEvents(m, events, now) else (m, [])
  }

  /** The rows before autojoin's choice. */
  function TickHeard(m: Machine, s: Standing, serving: bool, joined: bool, events: seq<HostEvent>, now: nat): Outcome {
    var c := TickFirst(m, s, ShouldScan(m, s, serving, joined), now);
    Then(c, Hear(c.0, events, now))
  }

  function TickJoiner(m: Machine, s: Standing, serving: bool, i: JoinerLook): Outcome {
    var d := TickHeard(m, s, serving, i.joined, i.events, i.now);
    var e := Then(d, TickChoice(d.0, ShouldScan(m, s, serving, i.joined), i.choice, i.now));
    Then(e, TickEnd(e.0, i))
  }

  // ---- the machine ----

  /** The settings, a call made by hand or one whose prompt was answered, and a look at the platform. */
  datatype Input =
    | SetScan(on: bool)
    | SetAutojoin(on: bool)
    | ManualCall(host: HostId, now: nat)
    | PromptSettled(host: HostId, now: nat)
    | Look(standing: Standing, serving: Option<Prefix>, start: StartLook, service: HostLook, scanning: JoinerLook, now: nat)

  /** The central is started for the call, or its exchange begins. */
  function Manual(m: Machine, host: HostId, now: nat): Outcome {
    match m.central
    case Absent(_) => StartCentralNow(m)
    case Starting => (m, [])
    case Running => BeginExchange(m, host, now)
  }

  function DoClose(m: Machine): Outcome {
    (m.(beacon := BeaconOff, joiner := Idle, hosts := map[], central := Absent(None)),
     [StopAdvertising] + if m.joiner.Scanning? && m.central.Running? then [StopScan] else [])
  }

  function DoLook(m: Machine, i: Input): Outcome
    requires i.Look?
  {
    var a := TickCentral(m, i.standing, i.start, i.now);
    var b := Then(a, TickHost(a.0, i.standing, i.serving, i.service));
    Then(b, TickJoiner(b.0, i.standing, i.serving.Some?, i.scanning))
  }

  function Step(m: Machine, i: Input): Outcome {
    match i
    case SetScan(on) => (m.(scan := on), [])
    case SetAutojoin(on) => (m.(autojoin := on, scan := if on then true else m.scan), [])
    case ManualCall(host, now) => if m.hasStarter && !m.joiner.Exchanging? then Manual(m, host, now) else (m, [])
    case PromptSettled(host, now) => Manual(m, host, now)
    case Look(_, _, _, _, _, _) => DoLook(m, i)
  }

  function New(scan: bool, autojoin: bool, hasStarter: bool): Machine {
    Machine(scan, autojoin, hasStarter, BeaconOff, Absent(None), Idle, map[])
  }
}
