/** What the Bluetooth tables keep over every run up to the close. */
module BluetoothRuns {
  import opened Common
  import opened Bluetooth

  /** What the outputs amount to: whether an advertisement and a scan stand, and the hosts last reported nearby. */
  datatype Ledger = Ledger(advertising: bool, scanning: bool, nearby: set<HostId>)

  const QUIET := Ledger(false, false, {})

  function Note(l: Ledger, o: Output): Ledger {
    match o
    case Advertise(_) => l.(advertising := true)
    case StopAdvertising => l.(advertising := false)
    case StartScan => l.(scanning := true)
    case StopScan => l.(scanning := false)
    case HostNearby(h) => l.(nearby := l.nearby + {h})
    case HostsGone(hs) => l.(nearby := l.nearby - hs)
    case _ => l
  }

  function NoteAll(l: Ledger, s: seq<Output>): Ledger
    decreases |s|
  {
    if s == [] then l else NoteAll(Note(l, s[0]), s[1..])
  }

  lemma {:induction false} NoteConcat(l: Ledger, a: seq<Output>, b: seq<Output>)
    ensures NoteAll(l, a + b) == NoteAll(NoteAll(l, a), b)
    decreases |a|
  {
    if a == [] {
      assert a + b == b;
    } else {
      assert (a + b)[1..] == a[1..] + b;
      NoteConcat(Note(l, a[0]), a[1..], b);
    }
  }

  lemma NoteOne(l: Ledger, a: Output)
    ensures NoteAll(l, [a]) == Note(l, a) && NoteAll(l, []) == l
  {}

  lemma NoteTwo(l: Ledger, a: Output, b: Output)
    ensures NoteAll(l, [a] + [b]) == Note(Note(l, a), b)
  {
    NoteConcat(l, [a], [b]);
    NoteOne(l, a);
    NoteOne(Note(l, a), b);
  }

  function After(l: Ledger, o: Outcome): Ledger { NoteAll(l, o.1) }

  lemma ThenAfter(l: Ledger, o: Outcome, next: Outcome)
    ensures After(l, Then(o, next)) == After(After(l, o), next)
  {
    NoteConcat(l, o.1, next.1);
  }

  // ---- the invariant ----

  ghost predicate BeaconOk(m: Machine, l: Ledger) {
    && (l.advertising ==> !m.beacon.BeaconOff?)
    && (m.beacon.Advertising? ==> |m.beacon.exchanges| <= MAX_EXCHANGES)
  }

  ghost predicate ScanOk(m: Machine, l: Ledger) {
    (l.scanning <==> m.joiner.Scanning?) && (!m.joiner.Idle? ==> m.central.Running?)
  }

  ghost predicate NearbyOk(m: Machine, l: Ledger) { l.nearby == m.hosts.Keys }

  ghost predicate Inv(m: Machine, l: Ledger) { BeaconOk(m, l) && ScanOk(m, l) && NearbyOk(m, l) }

  /** Only the central changed, and not away from running. */
  lemma CentralInv(m: Machine, l: Ledger, s: Standing, look: StartLook, now: nat)
    requires Inv(m, l)
    ensures var o := TickCentral(m, s, look, now);
            Inv(o.0, After(l, o)) && o.0 == m.(central := o.0.central) && (m.central.Running? ==> o.0 == m)
  {}

  // ---- the beacon ----

  /** The joiner's side is not the beacon's. */
  ghost predicate OnlyBeacon(m: Machine, l: Ledger, m': Machine, l': Ledger) {
    m' == m.(beacon := m'.beacon) && l' == l.(advertising := l'.advertising)
  }

  lemma EndOneInv(m: Machine, l: Ledger, device: Device)
    requires BeaconOk(m, l) && m.beacon.Advertising?
    ensures var o := EndOne(m, device);
            BeaconOk(o.0, After(l, o)) && OnlyBeacon(m, l, o.0, After(l, o)) && o.0.beacon.Advertising?
  {
    NoteOne(l, DisconnectJoiners({device}));
    assert device in m.beacon.exchanges ==> |m.beacon.exchanges - {device}| <= |m.beacon.exchanges| by {
      FewerKeys((m.beacon.exchanges - {device}).Keys, m.beacon.exchanges.Keys);
      assert |(m.beacon.exchanges - {device}).Keys| == |m.beacon.exchanges - {device}|;
      assert |m.beacon.exchanges.Keys| == |m.beacon.exchanges|;
    }
  }

  lemma JoinerEventInv(m: Machine, l: Ledger, e: JoinerEvent, hosting: bool, now: nat)
    requires BeaconOk(m, l)
    ensures var o := HandleJoinerEvent(m, e, hosting, now);
            && BeaconOk(o.0, After(l, o)) && OnlyBeacon(m, l, o.0, After(l, o))
            && (m.beacon.BeaconOff? ==> o.0.beacon.BeaconOff?)
  {
    match e
    case JoinerConnected(device) =>
      NoteOne(l, DisconnectJoiners({device}));
      if m.beacon.Advertising? && device !in m.beacon.exchanges {
        OneMore(m.beacon.exchanges, device, now + EXCHANGE_BOUND);
      }
    case JoinerChunk(device, readerGone) =>
      if m.beacon.Advertising? {
        EndOneInv(m, l, device);
      }
    case JoinerDisconnected(device) =>
      if m.beacon.Advertising? {
        EndOneInv(m, l, device);
      }
    case PlatformFailed =>
      if m.beacon.Advertising? {
        NoteOne(l, DisconnectJoiners(m.beacon.exchanges.Keys));
      }
  }

  lemma OneMore(exchanges: map<Device, nat>, device: Device, deadline: nat)
    requires device !in exchanges
    ensures |exchanges[device := deadline]| == |exchanges| + 1
  {}

  lemma {:induction false} JoinerEventsInv(m: Machine, l: Ledger, events: seq<JoinerEvent>, hosting: bool, now: nat)
    requires BeaconOk(m, l)
    ensures var o := HandleJoinerEvents(m, events, hosting, now);
            && BeaconOk(o.0, After(l, o)) && OnlyBeacon(m, l, o.0, After(l, o))
            && (m.beacon.BeaconOff? ==> o.0.beacon.BeaconOff?)
    decreases |events|
  {
    if events != [] {
      var o := HandleJoinerEvent(m, events[0], hosting, now);
      JoinerEventInv(m, l, events[0], hosting, now);
      var next := HandleJoinerEvents(o.0, events[1..], hosting, now);
      JoinerEventsInv(o.0, After(l, o), events[1..], hosting, now);
      ThenAfter(l, o, next);
    }
  }

  /** Where the beacon may not run, the look leaves it off. */
  lemma TickBeaconInv(m: Machine, l: Ledger, ready: bool, serving: Option<Prefix>, startOk: bool, finished: set<Device>, now: nat)
    requires BeaconOk(m, l)
    ensures var o := TickBeacon(m, ready, serving, startOk, finished, now).0;
            && BeaconOk(o.0, After(l, o)) && OnlyBeacon(m, l, o.0, After(l, o))
            && (!ready || serving.None? ==> o.0.beacon.BeaconOff?)
  {
    match m.beacon
    case Advertising(prefix, exchanges) =>
      if !ready || serving.None? {
        NoteOne(l, StopAdvertising);
      } else {
        AdvertisingNotes(l, serving.value, exchanges.Keys - Remaining(exchanges, finished, now).Keys);
      }
    case BeaconFailed =>
      NoteOne(l, StopAdvertising);
      if serving.Some? {
        NoteOne(l, Advertise(serving.value));
      }
    case BeaconOff =>
      if serving.Some? {
        NoteOne(l, Advertise(serving.value));
      }
  }

  lemma AdvertisingNotes(l: Ledger, prefix: Prefix, gone: set<Device>)
    ensures NoteAll(l, [Advertise(prefix)] + [DisconnectJoiners(gone)]) == l.(advertising := true)
    ensures NoteAll(l, [] + [DisconnectJoiners(gone)]) == l
  {
    NoteTwo(l, Advertise(prefix), DisconnectJoiners(gone));
    assert [] + [DisconnectJoiners(gone)] == [DisconnectJoiners(gone)];
  }

  lemma TickHostInv(m: Machine, l: Ledger, s: Standing, serving: Option<Prefix>, i: HostLook)
    requires BeaconOk(m, l)
    ensures var o := TickHost(m, s, serving, i);
            && BeaconOk(o.0, After(l, o)) && OnlyBeacon(m, l, o.0, After(l, o))
            && (!s.Ready? || !i.hosting || serving.None? ==> o.0.beacon.BeaconOff?)
  {
    var (o, ended) := TickBeacon(m, s.Ready? && i.hosting, serving, i.startOk, i.finished, i.now);
    TickBeaconInv(m, l, s.Ready? && i.hosting, serving, i.startOk, i.finished, i.now);
    if !ended {
      JoinerEventsInv(o.0, After(l, o), i.events, i.hosting, i.now);
      ThenAfter(l, o, HandleJoinerEvents(o.0, i.events, i.hosting, i.now));
    }
  }

  // ---- the joiner ----

  ghost predicate JoinerOk(m: Machine, l: Ledger) { ScanOk(m, l) && NearbyOk(m, l) }

  ghost predicate OnlyJoiner(m: Machine, l: Ledger, m': Machine, l': Ledger) {
    m' == m.(joiner := m'.joiner, hosts := m'.hosts) && l'.advertising == l.advertising
  }

  lemma EndExchangeInv(m: Machine, l: Ledger, ok: bool)
    requires JoinerOk(m, l)
    ensures var o := EndExchange(m, ok); JoinerOk(o.0, After(l, o)) && OnlyJoiner(m, l, o.0, After(l, o))
  {
    if m.joiner.Exchanging? {
      NoteOne(l, DisconnectHost(m.joiner.host));
    }
  }

  lemma BeginExchangeInv(m: Machine, l: Ledger, host: HostId, now: nat)
    requires JoinerOk(m, l) && m.central.Running?
    ensures var o := BeginExchange(m, host, now); JoinerOk(o.0, After(l, o)) && OnlyJoiner(m, l, o.0, After(l, o))
  {
    NoteTwo(l, StopScan, Connect(host));
    NoteOne(l, Connect(host));
    assert [] + [Connect(host)] == [Connect(host)];
  }

  lemma SeeHostInv(m: Machine, l: Ledger, host: HostId, prefix: Option<Prefix>, rssi: Option<int>, now: nat)
    requires JoinerOk(m, l)
    ensures var o := SeeHost(m, host, prefix, rssi, now); JoinerOk(o.0, After(l, o)) && OnlyJoiner(m, l, o.0, After(l, o))
  {
    NoteOne(l, HostNearby(host));
    assert SeeHost(m, host, prefix, rssi, now).0.hosts.Keys == m.hosts.Keys + {host};
  }

  lemma HostEventInv(m: Machine, l: Ledger, e: HostEvent, now: nat)
    requires JoinerOk(m, l)
    ensures var o := HandleHostEvent(m, e, now); JoinerOk(o.0, After(l, o)) && OnlyJoiner(m, l, o.0, After(l, o))
  {
    match e
    case Seen(host, prefix, rssi) => SeeHostInv(m, l, host, prefix, rssi, now);
    case NotABeacon =>
    case HostConnected(host) => NoteOne(l, DisconnectHost(host));
    case HostChunk(_, _) => EndExchangeInv(m, l, false);
    case HostDisconnected(_) => EndExchangeInv(m, l, false);
  }

  lemma {:induction false} HostEventsInv(m: Machine, l: Ledger, events: seq<HostEvent>, now: nat)
    requires JoinerOk(m, l)
    ensures var o := HandleHostEvents(m, events, now); JoinerOk(o.0, After(l, o)) && OnlyJoiner(m, l, o.0, After(l, o))
    decreases |events|
  {
    if events != [] {
      var o := HandleHostEvent(m, events[0], now);
      HostEventInv(m, l, events[0], now);
      HostEventsInv(o.0, After(l, o), events[1..], now);
      ThenAfter(l, o, HandleHostEvents(o.0, events[1..], now));
    }
  }

  lemma TickScanInv(m: Machine, l: Ledger, should: bool)
    requires JoinerOk(m, l) && (should ==> m.central.Running?)
    ensures var o := TickScan(m, should); JoinerOk(o.0, After(l, o)) && OnlyJoiner(m, l, o.0, After(l, o))
  {
    NoteOne(l, StartScan);
    NoteTwo(l, StopScan, HostsGone(m.hosts.Keys));
  }

  lemma TickGoneInv(m: Machine, l: Ledger, now: nat)
    requires JoinerOk(m, l)
    ensures var o := TickGone(m, now); JoinerOk(o.0, After(l, o)) && OnlyJoiner(m, l, o.0, After(l, o))
  {
    NoteOne(l, HostsGone(Unseen(m.hosts, now)));
  }

  lemma TickEndInv(m: Machine, l: Ledger, i: JoinerLook)
    requires JoinerOk(m, l)
    ensures var o := TickEnd(m, i); JoinerOk(o.0, After(l, o)) && OnlyJoiner(m, l, o.0, After(l, o))
  {
    EndExchangeInv(m, l, false);
    if i.outcome.Some? {
      EndExchangeInv(m, l, i.outcome.value);
    }
  }

  /** The joiner's parts one after another. */
  ghost predicate Took(m: Machine, l: Ledger, o: Outcome) {
    JoinerOk(o.0, After(l, o)) && OnlyJoiner(m, l, o.0, After(l, o))
  }

  lemma TookThen(m: Machine, l: Ledger, o: Outcome, next: Outcome)
    requires Took(m, l, o) && Took(o.0, After(l, o), next)
    ensures Took(m, l, Then(o, next))
  {
    ThenAfter(l, o, next);
  }

  lemma FirstRowsInv(m: Machine, l: Ledger, s: Standing, should: bool, now: nat)
    requires JoinerOk(m, l) && (should ==> m.central.Running?)
    ensures Took(m, l, TickFirst(m, s, should, now))
  {
    var a := TickScan(m, should);
    TickScanInv(m, l, should);
    var b := Then(a, TickReadiness(a.0, s));
    EndExchangeInv(a.0, After(l, a), false);
    assert Took(a.0, After(l, a), TickReadiness(a.0, s));
    TookThen(m, l, a, TickReadiness(a.0, s));
    TickGoneInv(b.0, After(l, b), now);
    TookThen(m, l, b, TickGone(b.0, now));
  }

  lemma HeardInv(m: Machine, l: Ledger, events: seq<HostEvent>, now: nat)
    requires JoinerOk(m, l)
    ensures Took(m, l, Hear(m, events, now))
  {
    HostEventsInv(m, l, events, now);
  }

  lemma TickHeardInv(m: Machine, l: Ledger, s: Standing, serving: bool, joined: bool, events: seq<HostEvent>, now: nat)
    requires JoinerOk(m, l)
    ensures Took(m, l, TickHeard(m, s, serving, joined, events, now))
  {
    var should := ShouldScan(m, s, serving, joined);
    var c := TickFirst(m, s, should, now);
    FirstRowsInv(m, l, s, should, now);
    HeardInv(c.0, After(l, c), events, now);
    TookThen(m, l, c, Hear(c.0, events, now));
  }

  lemma TickJoinerInv(m: Machine, l: Ledger, s: Standing, serving: bool, i: JoinerLook)
    requires JoinerOk(m, l)
    ensures Took(m, l, TickJoiner(m, s, serving, i))
  {
    var should := ShouldScan(m, s, serving, i.joined);
    var d := TickHeard(m, s, serving, i.joined, i.events, i.now);
    TickHeardInv(m, l, s, serving, i.joined, i.events, i.now);
    ChoiceInv(d.0, After(l, d), should, i.choice, i.now);
    TookThen(m, l, d, TickChoice(d.0, should, i.choice, i.now));
    var e := Then(d, TickChoice(d.0, should, i.choice, i.now));
    TickEndInv(e.0, After(l, e), i);
    TookThen(m, l, e, TickEnd(e.0, i));
  }

  lemma ChoiceInv(m: Machine, l: Ledger, should: bool, choice: Option<HostId>, now: nat)
    requires JoinerOk(m, l)
    ensures Took(m, l, TickChoice(m, should, choice, now))
  {
    if m.joiner.Scanning? && choice.Some? {
      BeginExchangeInv(m, l, choice.value, now);
    }
  }

  // ---- runs ----

  lemma LookInv(m: Machine, l: Ledger, i: Input)
    requires Inv(m, l) && i.Look?
    ensures var o := DoLook(m, i);
            && Inv(o.0, After(l, o))
            && (!i.standing.Ready? || !i.service.hosting || i.serving.None? ==> o.0.beacon.BeaconOff?)
  {
    var a := TickCentral(m, i.standing, i.start, i.now);
    CentralInv(m, l, i.standing, i.start, i.now);
    var b := TickHost(a.0, i.standing, i.serving, i.service);
    TickHostInv(a.0, After(l, a), i.standing, i.serving, i.service);
    ThenAfter(l, a, b);
    var c := TickJoiner(b.0, i.standing, i.serving.Some?, i.scanning);
    TickJoinerInv(b.0, After(l, Then(a, b)), i.standing, i.serving.Some?, i.scanning);
    ThenAfter(l, Then(a, b), c);
  }

  lemma ManualInv(m: Machine, l: Ledger, host: HostId, now: nat)
    requires Inv(m, l)
    ensures var o := Manual(m, host, now); Inv(o.0, After(l, o))
  {
    NoteOne(l, StartCentral);
    if m.central.Running? {
      BeginExchangeInv(m, l, host, now);
    }
  }

  lemma StepInv(m: Machine, l: Ledger, i: Input)
    requires Inv(m, l)
    ensures Inv(Step(m, i).0, After(l, Step(m, i)))
  {
    match i
    case SetScan(_) =>
    case SetAutojoin(_) =>
    case ManualCall(host, now) => ManualInv(m, l, host, now);
    case PromptSettled(host, now) => ManualInv(m, l, host, now);
    case Look(_, _, _, _, _, _) => LookInv(m, l, i);
  }

  /** The machine after the inputs, and everything it did. */
  function Run(start: Machine, inputs: seq<Input>): Outcome
    decreases |inputs|
  {
    if inputs == [] then (start, [])
    else
      var o := Run(start, inputs[..|inputs| - 1]);
      Then(o, Step(o.0, inputs[|inputs| - 1]))
  }

  lemma {:induction false} RunInv(scan: bool, autojoin: bool, hasStarter: bool, inputs: seq<Input>)
    ensures var o := Run(New(scan, autojoin, hasStarter), inputs); Inv(o.0, After(QUIET, o))
    decreases |inputs|
  {
    if inputs != [] {
      var init, last := inputs[..|inputs| - 1], inputs[|inputs| - 1];
      RunInv(scan, autojoin, hasStarter, init);
      var o := Run(New(scan, autojoin, hasStarter), init);
      StepInv(o.0, After(QUIET, o), last);
      ThenAfter(QUIET, o, Step(o.0, last));
    }
  }

  /**
   Over every run: at most four exchanges run, the platform scans exactly while the joiner
   scans, and a host is held nearby exactly when the last word about it was that it is.
   */
  lemma StandingOverRuns(scan: bool, autojoin: bool, hasStarter: bool, inputs: seq<Input>)
    ensures var o := Run(New(scan, autojoin, hasStarter), inputs);
            var l := After(QUIET, o);
            && (o.0.beacon.Advertising? ==> |o.0.beacon.exchanges| <= 4)
            && (l.scanning <==> o.0.joiner.Scanning?)
            && l.nearby == o.0.hosts.Keys
            && (l.advertising ==> !o.0.beacon.BeaconOff?)
  {
    RunInv(scan, autojoin, hasStarter, inputs);
  }

  ghost predicate MayNotAdvertise(i: Input) { i.Look? && (!i.standing.Ready? || !i.service.hosting || i.serving.None?) }

  lemma LookStops(m: Machine, l: Ledger, i: Input)
    requires Inv(m, l) && MayNotAdvertise(i)
    ensures !After(l, Step(m, i)).advertising
  {
    LookInv(m, l, i);
  }

  /** After any look where Bluetooth is not ready, nothing is hosted or nothing is served, no advertisement stands. */
  lemma NoStrayAdvertisement(scan: bool, autojoin: bool, hasStarter: bool, inputs: seq<Input>)
    requires inputs != [] && MayNotAdvertise(inputs[|inputs| - 1])
    ensures !After(QUIET, Run(New(scan, autojoin, hasStarter), inputs)).advertising
  {
    var o := Run(New(scan, autojoin, hasStarter), inputs[..|inputs| - 1]);
    RunInv(scan, autojoin, hasStarter, inputs[..|inputs| - 1]);
    LookStops(o.0, After(QUIET, o), inputs[|inputs| - 1]);
    ThenAfter(QUIET, o, Step(o.0, inputs[|inputs| - 1]));
  }

  // ---- the bound of the joiner's exchange ----

  /** A look that hears nothing from the hosts, Bluetooth ready. */
  predicate Quiet(i: Input) { i.Look? && i.standing.Ready? && i.scanning.events == [] }

  /** After any look an exchange whose stream runs is within its bound. */
  lemma StreamsEndInTime(m: Machine, i: Input)
    requires i.Look?
    ensures var j := DoLook(m, i).0.joiner; j.Exchanging? && j.streaming ==> i.scanning.now < j.deadline
  {
    var a := TickCentral(m, i.standing, i.start, i.now);
    var b := TickHost(a.0, i.standing, i.serving, i.service);
    EndsStreaming(b.0, i.standing, i.serving.Some?, i.scanning);
  }

  lemma EndsStreaming(m: Machine, s: Standing, serving: bool, i: JoinerLook)
    ensures var j := TickJoiner(m, s, serving, i).0.joiner; j.Exchanging? && j.streaming ==> i.now < j.deadline
  {
    var d := TickHeard(m, s, serving, i.joined, i.events, i.now);
    var e := TickChoice(d.0, ShouldScan(m, s, serving, i.joined), i.choice, i.now);
    JoinerEnds(m, s, serving, i, d, e);
    EndsInTime(e.0, i);
  }

  lemma JoinerEnds(m: Machine, s: Standing, serving: bool, i: JoinerLook, d: Outcome, e: Outcome)
    requires d == TickHeard(m, s, serving, i.joined, i.events, i.now)
    requires e == TickChoice(d.0, ShouldScan(m, s, serving, i.joined), i.choice, i.now)
    ensures TickJoiner(m, s, serving, i).0 == TickEnd(e.0, i).0
  {}

  lemma EndsInTime(m: Machine, i: JoinerLook)
    ensures var j := TickEnd(m, i).0.joiner; j.Exchanging? && j.streaming ==> i.now < j.deadline
  {}

  lemma JoinerUntouched(m: Machine, s: Standing, serving: Option<Prefix>, look: StartLook, service: HostLook, now: nat)
    requires m.central.Running?
    ensures var a := TickCentral(m, s, look, now);
            a.0 == m && TickHost(a.0, s, serving, service).0 == m.(beacon := TickHost(a.0, s, serving, service).0.beacon)
  {
    HostLeavesJoiner(m, s, serving, service);
  }

  lemma HostLeavesJoiner(m: Machine, s: Standing, serving: Option<Prefix>, i: HostLook)
    ensures TickHost(m, s, serving, i).0 == m.(beacon := TickHost(m, s, serving, i).0.beacon)
  {
    var (o, ended) := TickBeacon(m, s.Ready? && i.hosting, serving, i.startOk, i.finished, i.now);
    EventsLeaveJoiner(o.0, i.events, i.hosting, i.now);
  }

  lemma {:induction false} EventsLeaveJoiner(m: Machine, events: seq<JoinerEvent>, hosting: bool, now: nat)
    ensures HandleJoinerEvents(m, events, hosting, now).0 == m.(beacon := HandleJoinerEvents(m, events, hosting, now).0.beacon)
    decreases |events|
  {
    if events != [] {
      EventsLeaveJoiner(HandleJoinerEvent(m, events[0], hosting, now).0, events[1..], hosting, now);
    }
  }

  lemma QuietJoiner(m: Machine, s: Standing, serving: bool, i: JoinerLook)
    requires m.joiner.Exchanging? && m.central.Running? && s.Ready? && i.events == []
    ensures TickJoiner(m, s, serving, i).0.central.Running?
    ensures !m.joiner.streaming ==> TickJoiner(m, s, serving, i).0.joiner == m.joiner
    ensures m.joiner.streaming && m.joiner.deadline <= i.now ==> TickJoiner(m, s, serving, i).0.joiner.Idle?
  {
    var d := TickHeard(m, s, serving, i.joined, i.events, i.now);
    assert d.0 == m.(hosts := d.0.hosts);
    assert TickChoice(d.0, ShouldScan(m, s, serving, i.joined), i.choice, i.now) == (d.0, []);
  }

  /** A quiet look past the bound ends an exchange if and only if its stream runs: an unconnected one is not looked at. */
  lemma BoundEndsExactly(m: Machine, i: Input)
    requires m.joiner.Exchanging? && m.central.Running? && Quiet(i) && m.joiner.deadline <= i.scanning.now
    ensures DoLook(m, i).0.joiner.Idle? <==> m.joiner.streaming
    ensures !m.joiner.streaming ==> DoLook(m, i).0.joiner == m.joiner
  {
    QuietLook(m, i);
  }

  lemma QuietLook(m: Machine, i: Input)
    requires m.joiner.Exchanging? && m.central.Running? && Quiet(i)
    ensures DoLook(m, i).0.central.Running?
    ensures !m.joiner.streaming ==> DoLook(m, i).0.joiner == m.joiner
    ensures m.joiner.streaming && m.joiner.deadline <= i.scanning.now ==> DoLook(m, i).0.joiner.Idle?
  {
    JoinerUntouched(m, i.standing, i.serving, i.start, i.service, i.now);
    QuietJoiner(TickHost(m, i.standing, i.serving, i.service).0, i.standing, i.serving.Some?, i.scanning);
  }

  /** So an exchange that never connects outlives every bound, whatever the clock reads. */
  lemma {:induction false} UnconnectedOutlives(m: Machine, inputs: seq<Input>)
    requires m.joiner.Exchanging? && !m.joiner.streaming && m.central.Running?
    requires forall k :: 0 <= k < |inputs| ==> Quiet(inputs[k])
    ensures Run(m, inputs).0.joiner == m.joiner && Run(m, inputs).0.central.Running?
    decreases |inputs|
  {
    if inputs != [] {
      var init, last := inputs[..|inputs| - 1], inputs[|inputs| - 1];
      UnconnectedOutlives(m, init);
      QuietLook(Run(m, init).0, last);
    }
  }

  /** The first look of a served machine that autojoins: the central starts, and one host is seen and picked. */
  function FirstLook(h: HostId, serving: Prefix, beacon: Option<Prefix>, rssi: Option<int>, now: nat): Input {
    Look(Ready, Some(serving), Started, HostLook(false, false, {}, [], now),
         JoinerLook(false, [Seen(h, beacon, rssi)], Some(h), false, None, now), now)
  }

  function OneSeen(h: HostId, beacon: Option<Prefix>, rssi: Option<int>, now: nat): Hosts {
    map[h := Record(beacon, now, rssi, false)]
  }

  lemma FirstHeard(m: Machine, h: HostId, beacon: Option<Prefix>, rssi: Option<int>, now: nat)
    requires m.scan && m.central.Running? && m.joiner.Idle? && m.hosts == map[]
    ensures TickHeard(m, Ready, true, false, [Seen(h, beacon, rssi)], now).0 ==
            m.(joiner := Scanning, hosts := OneSeen(h, beacon, rssi, now))
  {
    var c := TickFirst(m, Ready, true, now);
    assert c.0 == m.(joiner := Scanning);
    assert [Seen(h, beacon, rssi)][1..] == [];
    assert HandleHostEvents(c.0, [Seen(h, beacon, rssi)], now).0 == SeeHost(c.0, h, beacon, rssi, now).0;
  }

  lemma FirstJoins(m: Machine, h: HostId, beacon: Option<Prefix>, rssi: Option<int>, now: nat)
    requires m.scan && m.autojoin && m.central.Running? && m.joiner.Idle? && m.hosts == map[]
    ensures var o := TickJoiner(m, Ready, true, JoinerLook(false, [Seen(h, beacon, rssi)], Some(h), false, None, now));
            o.0 == m.(joiner := Exchanging(h, false, false, now + EXCHANGE_BOUND), hosts := OneSeen(h, beacon, rssi, now))
  {
    FirstHeard(m, h, beacon, rssi, now);
  }

  lemma FirstExchange(h: HostId, serving: Prefix, beacon: Option<Prefix>, rssi: Option<int>, now: nat)
    ensures var o := Step(New(true, true, true), FirstLook(h, serving, beacon, rssi, now));
            o.0.joiner == Exchanging(h, false, false, now + EXCHANGE_BOUND) && o.0.central.Running?
    ensures IsStrongest(OneSeen(h, beacon, rssi, now), h)
  {
    var m := New(true, true, true).(central := Running);
    HostLeavesJoiner(m, Ready, Some(serving), HostLook(false, false, {}, [], now));
    FirstJoins(TickHost(m, Ready, Some(serving), HostLook(false, false, {}, [], now)).0, h, beacon, rssi, now);
  }

  lemma {:induction false} RunFirst(m: Machine, first: Input, inputs: seq<Input>)
    ensures Run(m, [first] + inputs).0 == Run(Step(m, first).0, inputs).0
    decreases |inputs|
  {
    var all := [first] + inputs;
    if inputs == [] {
      assert all == [first] && all[..0] == [];
      assert Run(m, []).0 == m;
    } else {
      assert all[..|all| - 1] == [first] + inputs[..|inputs| - 1];
      RunFirst(m, first, inputs[..|inputs| - 1]);
    }
  }

  /**
   A run of a fresh machine: the first look picks the only host it sees, and no number of quiet
   looks after it ends the exchange, whatever the clock reads.
   */
  lemma NeverConnects(h: HostId, serving: Prefix, beacon: Option<Prefix>, rssi: Option<int>, now: nat, inputs: seq<Input>)
    requires forall k :: 0 <= k < |inputs| ==> Quiet(inputs[k])
    ensures Run(New(true, true, true), [FirstLook(h, serving, beacon, rssi, now)] + inputs).0.joiner ==
            Exchanging(h, false, false, now + EXCHANGE_BOUND)
  {
    var first := FirstLook(h, serving, beacon, rssi, now);
    FirstExchange(h, serving, beacon, rssi, now);
    UnconnectedOutlives(Step(New(true, true, true), first).0, inputs);
    RunFirst(New(true, true, true), first, inputs);
  }

  /** A settled prompt takes the place of a running exchange, whose host is not disconnected. */
  lemma PromptReplacesExchange(m: Machine, host: HostId, now: nat)
    requires m.joiner.Exchanging? && m.central.Running?
    ensures var o := Step(m, PromptSettled(host, now));
            o.0.joiner == Exchanging(host, false, false, now + EXCHANGE_BOUND) && o.1 == [Connect(host)]
  {}

  // ---- the rows of a look, over everything said so far ----

  ghost predicate Consistent(m: Machine, outputs: seq<Output>) { Inv(m, NoteAll(QUIET, outputs)) }

  lemma CentralConsistent(m: Machine, outputs: seq<Output>, s: Standing, look: StartLook, now: nat)
    requires Consistent(m, outputs)
    ensures var o := TickCentral(m, s, look, now); Consistent(o.0, outputs + o.1)
  {
    CentralInv(m, NoteAll(QUIET, outputs), s, look, now);
    NoteConcat(QUIET, outputs, TickCentral(m, s, look, now).1);
  }

  lemma HostConsistent(m: Machine, outputs: seq<Output>, s: Standing, serving: Option<Prefix>, i: HostLook)
    requires Consistent(m, outputs)
    ensures var o := TickHost(m, s, serving, i);
            && Consistent(o.0, outputs + o.1)
            && (!s.Ready? || !i.hosting || serving.None? ==> !NoteAll(QUIET, outputs + o.1).advertising)
  {
    TickHostInv(m, NoteAll(QUIET, outputs), s, serving, i);
    NoteConcat(QUIET, outputs, TickHost(m, s, serving, i).1);
  }

  lemma JoinerConsistent(m: Machine, outputs: seq<Output>, s: Standing, serving: bool, i: JoinerLook)
    requires Consistent(m, outputs)
    ensures var o := TickJoiner(m, s, serving, i); Consistent(o.0, outputs + o.1)
  {
    TickJoinerInv(m, NoteAll(QUIET, outputs), s, serving, i);
    NoteConcat(QUIET, outputs, TickJoiner(m, s, serving, i).1);
  }

  lemma CloseConsistent(m: Machine, outputs: seq<Output>)
    requires Consistent(m, outputs)
    ensures var l := NoteAll(QUIET, outputs + DoClose(m).1); !l.advertising && !l.scanning
  {
    CloseStops(m, NoteAll(QUIET, outputs));
    NoteConcat(QUIET, outputs, DoClose(m).1);
  }

  /** The close stops the advertisement and the scan. */
  lemma CloseStops(m: Machine, l: Ledger)
    requires Inv(m, l)
    ensures var o := DoClose(m);
            !After(l, o).advertising && !After(l, o).scanning && o.0.joiner.Idle? && o.0.beacon.BeaconOff? && o.0.hosts == map[]
  {
    NoteTwo(l, StopAdvertising, StopScan);
    NoteOne(l, StopAdvertising);
    assert [StopAdvertising] + [] == [StopAdvertising];
  }
}
