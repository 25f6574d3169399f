/** The Bluetooth tables as they run, fields changed in place on each look. */
module BluetoothMachine {
  import opened Common
  import opened Bluetooth
  import Runs = BluetoothRuns

  class BluetoothTables {
    const hasStarter: bool
    var scan: bool
    var autojoin: bool
    var beacon: Beacon
    var central: Central
    var joiner: Joiner
    var hosts: Hosts
    var log: seq<Output>

    ghost function State(): Machine
      reads this
    {
      Machine(scan, autojoin, hasStarter, beacon, central, joiner, hosts)
    }

    /** What the outputs so far amount to. */
    ghost function Ledger(): Runs.Ledger
      reads this
    {
      Runs.NoteAll(Runs.QUIET, log)
    }

    ghost predicate Valid()
      reads this
    {
      Runs.Consistent(State(), log)
    }

    constructor (scan: bool, autojoin: bool, hasStarter: bool)
      ensures State() == New(scan, autojoin, hasStarter) && log == [] && Valid()
    {
      this.scan, this.autojoin, this.hasStarter := scan, autojoin, hasStarter;
      beacon, central, joiner, hosts, log := BeaconOff, Absent(None), Idle, map[], [];
    }

    /** The exchanges with an outcome or at their bound end, one walk over the map. */
    method EndFinished(exchanges: map<Device, nat>, finished: set<Device>, now: nat) returns (r: map<Device, nat>)
      ensures r == Remaining(exchanges, finished, now)
    {
      r := exchanges;
      var todo := exchanges.Keys;
      while todo != {}
        invariant todo <= exchanges.Keys
        invariant forall d :: d in r <==> d in exchanges && (d in todo || (d !in finished && now < exchanges[d]))
        invariant forall d :: d in r ==> r[d] == exchanges[d]
        decreases |todo|
      {
        var d :| d in todo;
        if d in finished || now >= exchanges[d] {
          r := r - {d};
        }
        todo := todo - {d};
      }
    }

    /** The beacon's row. `true` when the look ends there. */
    method LookAtBeacon(ready: bool, serving: Option<Prefix>, startOk: bool, finished: set<Device>, now: nat) returns (ended: bool)
      modifies `beacon, `log
      ensures (State(), ended) == (TickBeacon(old(State()), ready, serving, startOk, finished, now).0.0,
                                   TickBeacon(old(State()), ready, serving, startOk, finished, now).1)
      ensures log == old(log) + TickBeacon(old(State()), ready, serving, startOk, finished, now).0.1
    {
      match beacon
      case Advertising(prefix, exchanges) =>
        if !ready || serving.None? {
          log := log + [StopAdvertising];
          beacon := BeaconOff;
          return true;
        }
        var shown := prefix;
        var said: seq<Output> := [];
        if serving.value != prefix && startOk {
          said := [Advertise(serving.value)];
          shown := serving.value;
        }
        var remaining := EndFinished(exchanges, finished, now);
        log := log + (said + [DisconnectJoiners(exchanges.Keys - remaining.Keys)]);
        beacon := Advertising(shown, remaining);
        return false;
      case BeaconFailed =>
        if ready && serving.Some? {
          if startOk {
            log := log + [Advertise(serving.value)];
            beacon := Advertising(serving.value, map[]);
          }
        } else {
          log := log + [StopAdvertising];
          beacon := BeaconOff;
        }
        return false;
      case BeaconOff =>
        if ready && serving.Some? && startOk {
          log := log + [Advertise(serving.value)];
          beacon := Advertising(serving.value, map[]);
        }
        return false;
    }

    method EndDevice(device: Device)
      requires beacon.Advertising?
      modifies `beacon, `log
      ensures State() == EndOne(old(State()), device).0 && log == old(log) + EndOne(old(State()), device).1
    {
      if device in beacon.exchanges {
        beacon := beacon.(exchanges := beacon.exchanges - {device});
        log := log + [DisconnectJoiners({device})];
      }
    }

    method TakeJoinerEvent(e: JoinerEvent, hosting: bool, now: nat)
      modifies `beacon, `log
      ensures State() == HandleJoinerEvent(old(State()), e, hosting, now).0
      ensures log == old(log) + HandleJoinerEvent(old(State()), e, hosting, now).1
    {
      match e
      case JoinerConnected(device) =>
        if !beacon.Advertising? || |beacon.exchanges| >= MAX_EXCHANGES || device in beacon.exchanges || !hosting {
          log := log + [DisconnectJoiners({device})];
        } else {
          beacon := beacon.(exchanges := beacon.exchanges[device := now + EXCHANGE_BOUND]);
        }
      case JoinerChunk(device, readerGone) =>
        if beacon.Advertising? && readerGone {
          EndDevice(device);
        }
      case JoinerDisconnected(device) =>
        if beacon.Advertising? {
          EndDevice(device);
        }
      case PlatformFailed =>
        if beacon.Advertising? {
          log := log + [DisconnectJoiners(beacon.exchanges.Keys)];
          beacon := BeaconFailed;
        }
    }

    method TakeJoinerEvents(events: seq<JoinerEvent>, hosting: bool, now: nat)
      modifies `beacon, `log
      ensures State() == HandleJoinerEvents(old(State()), events, hosting, now).0
      ensures log == old(log) + HandleJoinerEvents(old(State()), events, hosting, now).1
    {
      ghost var all := HandleJoinerEvents(State(), events, hosting, now);
      for i := 0 to |events|
        invariant var rest := HandleJoinerEvents(State(), events[i..], hosting, now);
                  rest.0 == all.0 && log + rest.1 == old(log) + all.1
      {
        assert events[i..][0] == events[i] && events[i..][1..] == events[i + 1..];
        ghost var before := log;
        ghost var o := HandleJoinerEvent(State(), events[i], hosting, now);
        TakeJoinerEvent(events[i], hosting, now);
        ghost var rest := HandleJoinerEvents(State(), events[i + 1..], hosting, now);
        assert before + (o.1 + rest.1) == (before + o.1) + rest.1;
      }
    }

    /** The host's rows: the beacon first, then the service's events. */
    method LookAtRows(s: Standing, serving: Option<Prefix>, i: HostLook)
      modifies `beacon, `log
      ensures State() == TickHost(old(State()), s, serving, i).0 && log == old(log) + TickHost(old(State()), s, serving, i).1
    {
      var ended := LookAtBeacon(s.Ready? && i.hosting, serving, i.startOk, i.finished, i.now);
      if !ended {
        TakeJoinerEvents(i.events, i.hosting, i.now);
      }
    }

    /** The host's look. Where the beacon may not run, nothing is advertised after it. */
    method LookAtHost(s: Standing, serving: Option<Prefix>, i: HostLook)
      requires Valid()
      modifies `beacon, `log
      ensures State() == TickHost(old(State()), s, serving, i).0 && log == old(log) + TickHost(old(State()), s, serving, i).1
      ensures Valid() && (!s.Ready? || !i.hosting || serving.None? ==> !Ledger().advertising)
    {
      Runs.HostConsistent(State(), log, s, serving, i);
      LookAtRows(s, serving, i);
    }

    method FinishExchange(ok: bool)
      modifies `joiner, `hosts, `log
      ensures State() == EndExchange(old(State()), ok).0 && log == old(log) + EndExchange(old(State()), ok).1
    {
      if joiner.Exchanging? {
        var host := joiner.host;
        joiner := Idle;
        if central.Running? {
          log := log + [DisconnectHost(host)];
        }
        if !ok && host in hosts {
          hosts := hosts[host := hosts[host].(tried := true)];
        }
      }
    }

    method TakeHostEvent(e: HostEvent, now: nat)
      modifies `joiner, `hosts, `log
      ensures State() == HandleHostEvent(old(State()), e, now).0 && log == old(log) + HandleHostEvent(old(State()), e, now).1
    {
      match e
      case Seen(host, prefix, rssi) =>
        if host !in hosts {
          hosts := hosts[host := Record(prefix, now, rssi, false)];
          log := log + [HostNearby(host)];
        } else if hosts[host].prefix == prefix {
          hosts := hosts[host := hosts[host].(lastSeen := now, rssi := rssi)];
        } else {
          hosts := hosts[host := Record(prefix, now, rssi, false)];
          log := log + [HostNearby(host)];
        }
      case NotABeacon =>
      case HostConnected(host) =>
        if joiner.Exchanging? && joiner.host == host {
          joiner := joiner.(streaming := true, reading := true);
        } else if central.Running? {
          log := log + [DisconnectHost(host)];
        }
      case HostChunk(host, taken) =>
        if joiner.Exchanging? && joiner.host == host && !(joiner.reading && taken) {
          FinishExchange(false);
        }
      case HostDisconnected(host) =>
        if joiner.Exchanging? && joiner.host == host {
          if joiner.streaming {
            joiner := joiner.(reading := false);
          } else {
            FinishExchange(false);
          }
        }
    }

    method TakeHostEvents(events: seq<HostEvent>, now: nat)
      modifies `joiner, `hosts, `log
      ensures State() == HandleHostEvents(old(State()), events, now).0
      ensures log == old(log) + HandleHostEvents(old(State()), events, now).1
    {
      ghost var all := HandleHostEvents(State(), events, now);
      for i := 0 to |events|
        invariant var rest := HandleHostEvents(State(), events[i..], now);
                  rest.0 == all.0 && log + rest.1 == old(log) + all.1
      {
        assert events[i..][0] == events[i] && events[i..][1..] == events[i + 1..];
        ghost var before := log;
        ghost var o := HandleHostEvent(State(), events[i], now);
        TakeHostEvent(events[i], now);
        ghost var rest := HandleHostEvents(State(), events[i + 1..], now);
        assert before + (o.1 + rest.1) == (before + o.1) + rest.1;
      }
    }

    method ForgetUnseen(now: nat)
      modifies `hosts, `log
      ensures State() == TickGone(old(State()), now).0 && log == old(log) + TickGone(old(State()), now).1
    {
      var gone: set<HostId> := {};
      var todo := hosts.Keys;
      while todo != {}
        invariant todo <= hosts.Keys && hosts == old(hosts) && log == old(log)
        invariant forall h :: h in gone <==> h in hosts && h !in todo && now >= hosts[h].lastSeen + GONE_AFTER
        decreases |todo|
      {
        var h :| h in todo;
        if now >= hosts[h].lastSeen + GONE_AFTER {
          gone := gone + {h};
        }
        todo := todo - {h};
      }
      assert gone == Unseen(hosts, now);
      hosts := hosts - gone;
      log := log + [HostsGone(gone)];
    }

    /** Autojoin's candidate: a loudest untried host, or none when all were tried. */
    method StrongestUntriedHost() returns (best: Option<HostId>)
      ensures best.Some? ==> IsStrongest(hosts, best.value)
      ensures best.None? ==> forall h :: !Untried(hosts, h)
    {
      best := None;
      var todo := hosts.Keys;
      while todo != {}
        invariant todo <= hosts.Keys
        invariant best.Some? ==> Untried(hosts, best.value)
        invariant forall h :: Untried(hosts, h) && h !in todo ==> best.Some? && Strength(hosts[h]) <= Strength(hosts[best.value])
        decreases |todo|
      {
        var h :| h in todo;
        if !hosts[h].tried && (best.None? || Strength(hosts[h]) >= Strength(hosts[best.value])) {
          best := Some(h);
        }
        todo := todo - {h};
      }
    }

    method BeginJoinExchange(host: HostId, now: nat)
      modifies `joiner, `log
      ensures State() == BeginExchange(old(State()), host, now).0 && log == old(log) + BeginExchange(old(State()), host, now).1
    {
      var said: seq<Output> := [];
      if joiner.Scanning? && central.Running? {
        said := [StopScan];
      }
      joiner := Exchanging(host, false, false, now + EXCHANGE_BOUND);
      log := log + (said + if central.Running? then [Connect(host)] else []);
    }

    method LookAtScan(should: bool)
      modifies `joiner, `hosts, `log
      ensures State() == TickScan(old(State()), should).0 && log == old(log) + TickScan(old(State()), should).1
    {
      if joiner.Idle? && should {
        joiner := Scanning;
        log := log + [StartScan];
      } else if joiner.Scanning? && !should {
        log := log + ((if central.Running? then [StopScan] else []) + [HostsGone(hosts.Keys)]);
        hosts := map[];
        joiner := Idle;
      }
    }

    method FirstRows(s: Standing, should: bool, now: nat)
      modifies `joiner, `hosts, `log
      ensures State() == TickFirst(old(State()), s, should, now).0 && log == old(log) + TickFirst(old(State()), s, should, now).1
    {
      LookAtScan(should);
      if !s.Ready? {
        FinishExchange(false);
      }
      ForgetUnseen(now);
    }

    method HearHosts(events: seq<HostEvent>, now: nat)
      modifies `joiner, `hosts, `log
      ensures State() == Hear(old(State()), events, now).0 && log == old(log) + Hear(old(State()), events, now).1
    {
      if central.Running? {
        TakeHostEvents(events, now);
      }
    }

    method Choose(should: bool, now: nat) returns (picked: Option<HostId>)
      modifies `joiner, `log
      ensures State() == TickChoice(old(State()), should, picked, now).0
      ensures log == old(log) + TickChoice(old(State()), should, picked, now).1
      ensures picked.Some? ==> IsStrongest(old(hosts), picked.value)
    {
      picked := None;
      if autojoin && should && joiner.Scanning? {
        var best := StrongestUntriedHost();
        picked := best;
        if best.Some? {
          BeginJoinExchange(best.value, now);
        }
      }
    }

    method EndRunningExchange(i: JoinerLook)
      modifies `joiner, `hosts, `log
      ensures State() == TickEnd(old(State()), i).0 && log == old(log) + TickEnd(old(State()), i).1
    {
      if joiner.Exchanging? && joiner.streaming {
        if i.writeFailed {
          FinishExchange(false);
        } else if i.outcome.Some? {
          FinishExchange(i.outcome.value);
        } else if i.now >= joiner.deadline {
          FinishExchange(false);
        }
      }
    }

    method HeardRows(s: Standing, serving: bool, joined: bool, events: seq<HostEvent>, now: nat) returns (should: bool)
      modifies `joiner, `hosts, `log
      ensures should == ShouldScan(old(State()), s, serving, joined)
      ensures State() == TickHeard(old(State()), s, serving, joined, events, now).0
      ensures log == old(log) + TickHeard(old(State()), s, serving, joined, events, now).1
    {
      should := scan && serving && !joined && s.Ready? && central.Running?;
      FirstRows(s, should, now);
      HearHosts(events, now);
    }

    /** The joiner's look. Autojoin's pick is the strongest host it has not tried. */
    method LookAtJoiner(s: Standing, serving: bool, i: JoinerLook) returns (picked: Option<HostId>)
      requires Valid()
      modifies `joiner, `hosts, `log
      ensures State() == TickJoiner(old(State()), s, serving, i.(choice := picked)).0
      ensures log == old(log) + TickJoiner(old(State()), s, serving, i.(choice := picked)).1
      ensures picked.Some? ==> IsStrongest(TickHeard(old(State()), s, serving, i.joined, i.events, i.now).0.hosts, picked.value)
      ensures Valid()
    {
      picked := LookAtJoinerRows(s, serving, i);
      Runs.JoinerConsistent(old(State()), old(log), s, serving, i.(choice := picked));
    }

    method LookAtJoinerRows(s: Standing, serving: bool, i: JoinerLook) returns (picked: Option<HostId>)
      modifies `joiner, `hosts, `log
      ensures State() == TickJoiner(old(State()), s, serving, i.(choice := picked)).0
      ensures log == old(log) + TickJoiner(old(State()), s, serving, i.(choice := picked)).1
      ensures picked.Some? ==> IsStrongest(TickHeard(old(State()), s, serving, i.joined, i.events, i.now).0.hosts, picked.value)
    {
      var should := HeardRows(s, serving, i.joined, i.events, i.now);
      picked := Choose(should, i.now);
      EndRunningExchange(i.(choice := picked));
    }

    method LookAtCentral(s: Standing, look: StartLook, now: nat)
      requires Valid()
      modifies `central, `log
      ensures State() == TickCentral(old(State()), s, look, now).0 && log == old(log) + TickCentral(old(State()), s, look, now).1
      ensures Valid()
    {
      Runs.CentralConsistent(State(), log, s, look, now);
      if s.Ready? && central.Absent? && (central.retry.None? || now >= central.retry.value) && hasStarter {
        central := Starting;
        log := log + [StartCentral];
      }
      if central.Starting? {
        match look
        case NotYet =>
        case Started => central := Running;
        case StartFailed => central := Absent(Some(now + CENTRAL_RETRY));
      }
    }

    method CloseTables()
      requires Valid()
      modifies this
      ensures State() == DoClose(old(State())).0 && log == old(log) + DoClose(old(State())).1
      ensures !Ledger().advertising && !Ledger().scanning
    {
      Runs.CloseConsistent(State(), log);
      log := log + ([StopAdvertising] + if joiner.Scanning? && central.Running? then [StopScan] else []);
      beacon, joiner, hosts, central := BeaconOff, Idle, map[], Absent(None);
    }
  }
}
