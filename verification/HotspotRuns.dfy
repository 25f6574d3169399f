/** What the hotspot machine keeps over every run: no caller lost, no join overlapping, no dial out of turn. */
module HotspotRuns {
  import opened Common
  import opened Hotspot

  /**
   What the outputs amount to: how often one watched caller asked, was answered or was
   dropped at the close; whether a platform join stands and whether one was ever requested
   over another; whether the dials are bound; and, of the latest join, when it dialled and
   how often it gave up.
   */
  datatype Ledger = Ledger(
    watched: Token, asked: nat, answered: nat, abandoned: nat,
    requested: bool, overlapped: bool, bound: bool, dials: seq<nat>, gaveUp: nat)

  function Blank(watched: Token): Ledger { Ledger(watched, 0, 0, 0, false, false, false, [], 0) }

  function One(l: Ledger, t: Token): nat { if t == l.watched then 1 else 0 }

  function Note(l: Ledger, o: Output): Ledger {
    match o
    case Asked(t) => l.(asked := l.asked + One(l, t))
    case Answer(t, _) => l.(answered := l.answered + One(l, t))
    case Abandon(t) => l.(abandoned := l.abandoned + One(l, t))
    case RequestJoin => l.(requested := true, overlapped := l.overlapped || l.requested)
    case JoinNotTaken => l.(requested := false)
    case LeaveJoin => l.(requested := false)
    case JoinEnded => l.(requested := false)
    case Bind(_, _) => l.(bound := true, dials := [], gaveUp := 0)
    case Unbind => l.(bound := false)
    case Dial(_, at) => l.(dials := l.dials + [at])
    case Emit(n) => if n.JoinedHostUnreached? || n.JoinedNetworkBlockedByVpn? then l.(gaveUp := l.gaveUp + 1) else l
    case _ => l
  }

  function NoteAll(l: Ledger, s: seq<Output>): (r: Ledger)
    ensures r.watched == l.watched
    decreases |s|
  {
    if s == [] then l else NoteAll(Note(l, s[0]), s[1..])
  }

  lemma {:induction false} NoteConcat(l: Ledger, a: seq<Output>, b: seq<Output>)
    ensures NoteAll(l, a + b) == NoteAll(NoteAll(l, a), b)
    decreases |a|
  {
    if a == [] {
      assert a + b == b;
    } else {
      assert (a + b)[1..] == a[1..] + b;
      NoteConcat(Note(l, a[0]), a[1..], b);
    }
  }

  lemma NoteOne(l: Ledger, a: Output)
    ensures NoteAll(l, [a]) == Note(l, a) && NoteAll(l, []) == l
  {}

  lemma NoteTwo(l: Ledger, a: Output, b: Output)
    ensures NoteAll(l, [a, b]) == Note(Note(l, a), b)
  {
    assert [a, b] == [a] + [b];
    NoteConcat(l, [a], [b]);
    NoteOne(l, a);
    NoteOne(Note(l, a), b);
  }

  lemma NoteThree(l: Ledger, a: Output, b: Output, c: Output)
    ensures NoteAll(l, [a, b, c]) == Note(Note(Note(l, a), b), c)
  {
    assert [a, b, c] == [a, b] + [c];
    NoteConcat(l, [a, b], [c]);
    NoteTwo(l, a, b);
    NoteOne(Note(Note(l, a), b), c);
  }

  function Count(s: seq<Token>, t: Token): nat
    decreases |s|
  {
    if s == [] then 0 else (if s[0] == t then 1 else 0) + Count(s[1..], t)
  }

  lemma {:induction false} CountSnoc(s: seq<Token>, x: Token, t: Token)
    ensures Count(s + [x], t) == Count(s, t) + if x == t then 1 else 0
    decreases |s|
  {
    if s == [] {
      assert s + [x] == [x];
    } else {
      assert (s + [x])[1..] == s[1..] + [x];
      CountSnoc(s[1..], x, t);
    }
  }

  /** Every waiting caller gets one answer. */
  lemma {:induction false} NoteAnswers(l: Ledger, replies: seq<Token>, r: Reply)
    ensures NoteAll(l, AnswerAll(replies, r)) == l.(answered := l.answered + Count(replies, l.watched))
    decreases |replies|
  {
    var s := AnswerAll(replies, r);
    if replies != [] {
      assert s[1..] == AnswerAll(replies[1..], r);
      NoteAnswers(Note(l, s[0]), replies[1..], r);
    }
  }

  lemma {:induction false} NoteAbandons(l: Ledger, replies: seq<Token>, s: seq<Output>)
    requires |s| == |replies| && forall i :: 0 <= i < |s| ==> s[i] == Abandon(replies[i])
    ensures NoteAll(l, s) == l.(abandoned := l.abandoned + Count(replies, l.watched))
    decreases |replies|
  {
    if replies != [] {
      NoteAbandons(Note(l, s[0]), replies[1..], s[1..]);
    }
  }

  // ---- the invariant ----

  /** How often the tables still owe a caller an answer. */
  function Pending(m: Machine, t: Token): nat {
    (if m.host.Starting? then Count(m.host.replies, t) else 0) + (if m.join.Requesting? && m.join.reply == t then 1 else 0)
  }

  ghost predicate Conserved(m: Machine, l: Ledger) { l.asked == l.answered + l.abandoned + Pending(m, l.watched) }

  ghost predicate JoinsApart(m: Machine, l: Ledger) {
    !l.overlapped && (l.requested <==> !m.join.Idle?) && (l.bound <==> m.join.Joined?)
  }

  /** The dials of one join: two seconds apart, all within the bound of the first. */
  ghost predicate DialsOk(dials: seq<nat>) {
    && (forall i :: 0 <= i < |dials| - 1 ==> dials[i] + REDIAL <= dials[i + 1])
    && (forall i :: 0 <= i < |dials| ==> dials[i] < dials[0] + DIAL_BOUND)
  }

  /** A standing plan waits for exactly one thing, the answer of its last dial or the time of the next. */
  ghost predicate PlanOk(p: DialPlan, dials: seq<nat>) {
    && dials != []
    && p.bound == dials[0] + DIAL_BOUND
    && (p.inFlight.Some? <==> p.next.None?)
    && (p.inFlight.Some? ==> p.inFlight.value == dials[|dials| - 1])
    && (p.next.Some? ==> p.next.value == dials[|dials| - 1] + REDIAL)
  }

  ghost predicate DialsStand(m: Machine, l: Ledger) {
    && DialsOk(l.dials) && l.gaveUp <= 1
    && (m.join.Joined? && m.join.dial.Some? ==> PlanOk(m.join.dial.value, l.dials) && l.gaveUp == 0)
  }

  ghost predicate Inv(m: Machine, l: Ledger) { Conserved(m, l) && JoinsApart(m, l) && DialsStand(m, l) }

  function After(l: Ledger, o: Outcome): Ledger { NoteAll(l, o.1) }

  lemma ThenAfter(l: Ledger, o: Outcome, next: Outcome)
    ensures After(l, Then(o, next)) == After(After(l, o), next)
  {
    NoteConcat(l, o.1, next.1);
  }

  // ---- every step keeps it ----

  lemma TickHostInv(m: Machine, l: Ledger, status: HostStatus, port: Option<nat>, now: nat)
    requires Inv(m, l)
    ensures var o := TickHost(m, status, port, now);
            Inv(o.0, After(l, o)) && o.0.join == m.join && o.0.personal == m.personal && (o.0.host.Starting? ==> now < o.0.host.deadline)
  {
    if m.host.Starting? {
      var replies := m.host.replies;
      match status
      case Started(ssid, passphrase, wpa3) => NoteAnswers(l, replies, Hosted(Offer(ssid, passphrase, wpa3, port)));
      case HostFailed(error) => NoteAnswers(l, replies, HostRefused(error));
      case Stopped => NoteAnswers(l, replies, HostRefused(Failed));
      case HostPending =>
        if now >= m.host.deadline {
          NoteConcat(l, [StopHosting], AnswerAll(replies, HostRefused(HostTimedOut)));
          NoteOne(l, StopHosting);
          NoteAnswers(l, replies, HostRefused(HostTimedOut));
        }
    } else {
      NoteOne(l, Emit(HotspotStopped));
    }
  }

  lemma TickLandingInv(m: Machine, l: Ledger, landed: bool, now: nat)
    requires Inv(m, l)
    ensures var o := TickLanding(m, landed, now);
            && Inv(o.0, After(l, o)) && o.0.join == m.join && o.0.host == m.host
            && (o.0.personal.PersonalHosting? && o.0.personal.landing.Some? ==> now < o.0.personal.landing.value)
  {}

  lemma AvailableInv(m: Machine, l: Ledger, address: Bytes, prefix: nat, gateway: Bytes, now: nat)
    requires Inv(m, l) && m.join.Requesting?
    ensures var o := TickJoin(m, Available(address, prefix, gateway), now); Inv(o.0, After(l, o))
  {
    var reply := m.join.reply;
    if m.autolink && m.join.offer.port.Some? {
      NoteThree(l, Bind(address, prefix), Dial((gateway, m.join.offer.port.value), now), Answer(reply, JoinedAt(gateway)));
      assert [] + [now] == [now];
    } else {
      NoteTwo(l, Bind(address, prefix), Answer(reply, JoinedAt(gateway)));
    }
  }

  lemma DeclinedInv(m: Machine, l: Ledger, first: Output, r: Reply)
    requires Inv(m, l) && m.join.Requesting? && (first == LeaveJoin || first == JoinEnded)
    ensures Inv(m.(join := Idle), NoteAll(l, [first, Answer(m.join.reply, r)]))
  {
    NoteTwo(l, first, Answer(m.join.reply, r));
  }

  lemma TickJoinInv(m: Machine, l: Ledger, status: JoinStatus, now: nat)
    requires Inv(m, l)
    ensures var o := TickJoin(m, status, now);
            Inv(o.0, After(l, o)) && o.0.host == m.host && o.0.personal == m.personal && (o.0.join.Requesting? ==> now < o.0.join.deadline)
  {
    if m.join.Requesting? {
      match status
      case Available(address, prefix, gateway) => AvailableInv(m, l, address, prefix, gateway, now);
      case Unavailable => DeclinedInv(m, l, JoinEnded, JoinRefused(Declined));
      case Lost => DeclinedInv(m, l, JoinEnded, JoinRefused(Declined));
      case JoinPending => DeclinedInv(m, l, LeaveJoin, JoinRefused(JoinTimedOut));
    } else if m.join.Joined? {
      NoteThree(l, JoinEnded, Unbind, Emit(HotspotLeft));
    }
  }

  lemma LookedOk(plan: DialPlan, look: DialLook, dials: seq<nat>)
    requires PlanOk(plan, dials) && (plan.inFlight.Some? ==> look.DialFailed? || look.NoAnswer?)
    ensures PlanOk(Looked(plan, look), dials) && Looked(plan, look).address == plan.address
  {}

  lemma RedialInv(m: Machine, l: Ledger, plan: DialPlan, now: nat)
    requires Inv(m, l) && m.join.Joined? && l.gaveUp == 0 && PlanOk(plan, l.dials)
    requires plan.inFlight.None? && plan.next.value <= now < plan.bound
    ensures Inv(m.(join := Joined(Some(plan.(inFlight := Some(now), next := None)))), NoteAll(l, [Dial(plan.address, now)]))
  {}

  lemma EndedInv(m: Machine, l: Ledger, n: Notice)
    requires Inv(m, l) && m.join.Joined? && m.join.dial.Some?
    ensures Inv(m.(join := Joined(None)), l) && Inv(m.(join := Joined(None)), NoteAll(l, [Emit(n)]))
  {}

  lemma TickDialInv(m: Machine, l: Ledger, look: DialLook, now: nat)
    requires Inv(m, l)
    ensures var o := TickDial(m, look, now);
            && Inv(o.0, After(l, o)) && o.0.host == m.host && o.0.personal == m.personal
            && (o.0.join.Joined? <==> m.join.Joined?) && (!m.join.Joined? ==> o.0.join == m.join)
            && (o.0.join.Joined? && o.0.join.dial.Some? ==> now < o.0.join.dial.value.bound)
  {
    if m.join.Joined? && m.join.dial.Some? {
      EndedInv(m, l, JoinedNetworkBlockedByVpn);
      EndedInv(m, l, JoinedHostUnreached);
      if !(m.join.dial.value.inFlight.Some? && (look.Linked? || look.BlockedByVpn?)) {
        var plan := Looked(m.join.dial.value, look);
        LookedOk(m.join.dial.value, look, l.dials);
        if plan.inFlight.None? && plan.next.value <= now < plan.bound {
          RedialInv(m, l, plan, now);
        }
      }
    }
  }

  lemma TickInv(m: Machine, l: Ledger, i: Input)
    requires Inv(m, l) && i.Tick?
    ensures var o := DoTick(m, i); Inv(o.0, After(l, o)) && Timely(o.0, i.clock)
  {
    var a := TickHost(m, i.host, i.port, i.clock.host);
    TickHostInv(m, l, i.host, i.port, i.clock.host);
    var b := TickLanding(a.0, i.landed, i.clock.landing);
    TickLandingInv(a.0, After(l, a), i.landed, i.clock.landing);
    ThenAfter(l, a, b);
    var c := TickJoin(b.0, i.join, i.clock.join);
    TickJoinInv(b.0, After(l, Then(a, b)), i.join, i.clock.join);
    ThenAfter(l, Then(a, b), c);
    var d := TickDial(c.0, i.look, i.clock.dial);
    TickDialInv(c.0, After(l, Then(Then(a, b), c)), i.look, i.clock.dial);
    ThenAfter(l, Then(Then(a, b), c), d);
  }

  /** Nothing stands past its bound as the tick read the clock for it. */
  ghost predicate Timely(m: Machine, clock: Clock) {
    && (m.host.Starting? ==> clock.host < m.host.deadline)
    && (m.personal.PersonalHosting? && m.personal.landing.Some? ==> clock.landing < m.personal.landing.value)
    && (m.join.Requesting? ==> clock.join < m.join.deadline)
    && (m.join.Joined? && m.join.dial.Some? ==> clock.dial < m.join.dial.value.bound)
  }

  lemma HostInv(m: Machine, l: Ledger, token: Token, refusal: Option<HostError>, port: Option<nat>, now: nat)
    requires Inv(m, l)
    ensures var o := HandleHost(m, token, refusal, port, now); Inv(o.0, After(l, o))
  {
    match m.host
    case Off =>
      if refusal.Some? {
        NoteThree(l, Asked(token), RequestHost, Answer(token, HostRefused(refusal.value)));
      } else {
        NoteTwo(l, Asked(token), RequestHost);
        assert [] + [token] == [token];
        CountSnoc([], token, l.watched);
      }
    case Starting(replies, deadline) =>
      NoteOne(l, Asked(token));
      CountSnoc(replies, token, l.watched);
    case Hosting(offer) => NoteTwo(l, Asked(token), Answer(token, Hosted(offer.(port := port))));
  }

  lemma StopInv(m: Machine, l: Ledger)
    requires Inv(m, l)
    ensures var o := HandleStop(m); Inv(o.0, After(l, o))
  {
    var replies := if m.host.Starting? then AnswerAll(m.host.replies, HostRefused(Failed)) else [];
    var stop := if !m.host.Off? || m.personal.PersonalHosting? then [StopHosting] else [];
    NoteConcat(l, replies, stop);
    if m.host.Starting? {
      NoteAnswers(l, m.host.replies, HostRefused(Failed));
    }
    NoteOne(NoteAll(l, replies), StopHosting);
  }

  lemma PersonalInv(m: Machine, l: Ledger, token: Token, ssid: string, passphrase: string, refusal: Option<HostError>, port: Option<nat>)
    requires Inv(m, l)
    ensures var o := HandlePersonal(m, token, ssid, passphrase, refusal, port); Inv(o.0, After(l, o))
  {
    if refusal.Some? {
      NoteThree(l, Asked(token), RequestPersonal, Answer(token, HostRefused(refusal.value)));
    } else {
      NoteThree(l, Asked(token), RequestPersonal, Answer(token, Hosted(Offer(ssid, passphrase, false, port))));
    }
  }

  lemma LeavingInv(m: Machine, l: Ledger)
    requires Inv(m, l)
    ensures Inv(m.(join := Idle), NoteAll(l, Leaving(m.join)))
  {
    match m.join
    case Idle =>
    case Requesting(_, reply, _) => NoteTwo(l, LeaveJoin, Answer(reply, JoinRefused(Declined)));
    case Joined(_) => NoteTwo(l, LeaveJoin, Unbind);
  }

  function OneMoreAsked(l: Ledger, n: nat): Ledger { l.(asked := l.asked + n) }

  lemma NoteCommutes(l: Ledger, n: nat, o: Output)
    ensures Note(OneMoreAsked(l, n), o) == OneMoreAsked(Note(l, o), n)
  {}

  lemma {:induction false} AskedCommutes(l: Ledger, n: nat, s: seq<Output>)
    ensures NoteAll(OneMoreAsked(l, n), s) == OneMoreAsked(NoteAll(l, s), n)
    decreases |s|
  {
    if s != [] {
      NoteCommutes(l, n, s[0]);
      AskedCommutes(Note(l, s[0]), n, s[1..]);
    }
  }

  lemma AskedFirst(l: Ledger, token: Token, s: seq<Output>)
    ensures NoteAll(l, [Asked(token)] + s) == OneMoreAsked(NoteAll(l, s), One(l, token))
  {
    NoteConcat(l, [Asked(token)], s);
    NoteOne(l, Asked(token));
    AskedCommutes(l, One(l, token), s);
  }

  lemma JoinInv(m: Machine, l: Ledger, token: Token, offer: Offer, refusal: Option<JoinError>, now: nat)
    requires Inv(m, l)
    ensures var o := HandleJoin(m, token, offer, refusal, now); Inv(o.0, After(l, o))
  {
    var leave := [Asked(token)] + Leaving(m.join);
    var left := NoteAll(l, leave);
    LeavingInv(m, l);
    AskedFirst(l, token, Leaving(m.join));
    if refusal.Some? {
      NoteConcat(l, leave, [RequestJoin, JoinNotTaken, Answer(token, JoinRefused(refusal.value))]);
      NoteThree(left, RequestJoin, JoinNotTaken, Answer(token, JoinRefused(refusal.value)));
    } else {
      NoteConcat(l, leave, [RequestJoin]);
      NoteOne(left, RequestJoin);
    }
  }

  lemma CloseJoinInv(m: Machine, l: Ledger)
    requires Inv(m, l)
    ensures var leave := if m.join.Idle? then [] else if m.join.Joined? then [LeaveJoin, Unbind] else [LeaveJoin, Abandon(m.join.reply)];
            var left := NoteAll(l, leave);
            && Inv(m.(join := Idle), left)
            && left.abandoned == l.abandoned + if m.join.Requesting? && m.join.reply == l.watched then 1 else 0
  {
    NoteTwo(l, LeaveJoin, Unbind);
    if m.join.Requesting? {
      NoteTwo(l, LeaveJoin, Abandon(m.join.reply));
    }
  }

  lemma CloseInv(m: Machine, l: Ledger)
    requires Inv(m, l)
    ensures var o := DoClose(m); Inv(o.0, After(l, o)) && After(l, o).abandoned == l.abandoned + Pending(m, l.watched)
  {
    var stop := if !m.host.Off? || m.personal.PersonalHosting? then [StopHosting] else [];
    var leave := if m.join.Idle? then [] else if m.join.Joined? then [LeaveJoin, Unbind] else [LeaveJoin, Abandon(m.join.reply)];
    var drop := if m.host.Starting? then seq(|m.host.replies|, k requires 0 <= k < |m.host.replies| => Abandon(m.host.replies[k])) else [];
    NoteConcat(l, stop + leave, drop);
    NoteConcat(l, stop, leave);
    NoteOne(l, StopHosting);
    CloseJoinInv(m, l);
    if m.host.Starting? {
      NoteAbandons(NoteAll(l, leave), m.host.replies, drop);
    }
  }

  lemma StepInv(m: Machine, l: Ledger, i: Input)
    requires Inv(m, l)
    ensures Inv(Step(m, i).0, After(l, Step(m, i)))
  {
    match i
    case HostCommand(token, refusal, port, now) => HostInv(m, l, token, refusal, port, now);
    case StopHostCommand => StopInv(m, l);
    case PersonalCommand(token, ssid, passphrase, refusal, port) => PersonalInv(m, l, token, ssid, passphrase, refusal, port);
    case OfferHandedOut(now) =>
    case JoinCommand(token, offer, refusal, now) => JoinInv(m, l, token, offer, refusal, now);
    case LeaveCommand => LeavingInv(m, l);
    case Tick(_, _, _, _, _, _) => TickInv(m, l, i);
    case Close => CloseInv(m, l);
  }

  // ---- what an answer means ----

  /** The same network, the port as the device serves when the answer goes. */
  predicate SameNetwork(a: Offer, b: Offer) { a.(port := b.port) == b }

  /** An answer is true of the tables it leaves behind. */
  ghost predicate Truthful(m: Machine, i: Input, m': Machine, o: Output) {
    o.Answer? ==>
      match o.reply
      case Hosted(offer) =>
        || (m'.host.Hosting? && SameNetwork(m'.host.offer, offer))
        || (m'.personal.PersonalHosting? && m'.personal.typed == offer)
      case JoinedAt(_) => m.join.Requesting? && o.token == m.join.reply && m'.join.Joined?
      case HostRefused(_) => i.PersonalCommand? || !m'.host.Hosting?
      case JoinRefused(_) => !m'.join.Joined?
  }

  lemma CommandTruthful(m: Machine, i: Input, k: nat)
    requires !i.Tick? && k < |Step(m, i).1|
    ensures Truthful(m, i, Step(m, i).0, Step(m, i).1[k])
  {}

  /** A bound's refusal is sent at or past the bound, and only while the platform has not answered. */
  lemma TimedOutIsLate(m: Machine, i: Input, k: nat)
    requires i.Tick? && k < |DoTick(m, i).1| && DoTick(m, i).1[k].Answer?
    ensures DoTick(m, i).1[k].reply == JoinRefused(JoinTimedOut) ==>
              i.join.JoinPending? && m.join.Requesting? && m.join.deadline <= i.clock.join && DoTick(m, i).1[k].token == m.join.reply
    ensures DoTick(m, i).1[k].reply == HostRefused(HostTimedOut) && i.host != HostFailed(HostTimedOut) ==>
              i.host.HostPending? && m.host.Starting? && m.host.deadline <= i.clock.host
  {
    TickParts(m, i, k);
  }

  /** Which row of the tick an output comes from. */
  lemma TickParts(m: Machine, i: Input, k: nat)
    requires i.Tick? && k < |DoTick(m, i).1|
    ensures var a := TickHost(m, i.host, i.port, i.clock.host);
            var b := TickLanding(a.0, i.landed, i.clock.landing);
            var c := TickJoin(b.0, i.join, i.clock.join);
            var d := TickDial(c.0, i.look, i.clock.dial);
            && c.0.host == a.0.host && b.0.join == m.join && d.0.host == a.0.host
            && var x := DoTick(m, i).1[k]; x in a.1 || x in b.1 || x in c.1 || x in d.1
  {
    var a := TickHost(m, i.host, i.port, i.clock.host);
    var b := TickLanding(a.0, i.landed, i.clock.landing);
    var c := TickJoin(b.0, i.join, i.clock.join);
    var d := TickDial(c.0, i.look, i.clock.dial);
    assert DoTick(m, i).1 == a.1 + b.1 + c.1 + d.1;
  }

  lemma HostRowTruthful(m: Machine, status: HostStatus, port: Option<nat>, now: nat, x: Output)
    requires x in TickHost(m, status, port, now).1 && x.Answer?
    ensures if x.reply.Hosted? then TickHost(m, status, port, now).0.host == Hosting(x.reply.offer)
            else x.reply.HostRefused? && TickHost(m, status, port, now).0.host.Off?
  {}

  lemma JoinRowTruthful(m: Machine, status: JoinStatus, now: nat, x: Output)
    requires x in TickJoin(m, status, now).1 && x.Answer?
    ensures m.join.Requesting? && x.token == m.join.reply
    ensures if x.reply.JoinedAt? then TickJoin(m, status, now).0.join.Joined? && status.Available? && status.gateway == x.reply.gateway
            else x.reply.JoinRefused? && TickJoin(m, status, now).0.join.Idle?
  {}

  lemma TickTruthful(m: Machine, i: Input, k: nat)
    requires i.Tick? && k < |DoTick(m, i).1|
    ensures Truthful(m, i, DoTick(m, i).0, DoTick(m, i).1[k])
  {
    var a := TickHost(m, i.host, i.port, i.clock.host);
    var b := TickLanding(a.0, i.landed, i.clock.landing);
    var c := TickJoin(b.0, i.join, i.clock.join);
    var d := TickDial(c.0, i.look, i.clock.dial);
    var x := DoTick(m, i).1[k];
    TickParts(m, i, k);
    if x.Answer? {
      assert x !in b.1 && x !in d.1;
      if x in a.1 {
        HostRowTruthful(m, i.host, i.port, i.clock.host, x);
      } else {
        JoinRowTruthful(b.0, i.join, i.clock.join, x);
      }
    }
  }

  /** Whatever the input, a caller told it hosts or has joined does, and one refused does not. */
  lemma AnswersAreTrue(m: Machine, i: Input, k: nat)
    requires k < |Step(m, i).1|
    ensures Truthful(m, i, Step(m, i).0, Step(m, i).1[k])
  {
    if i.Tick? {
      TickTruthful(m, i, k);
    } else {
      CommandTruthful(m, i, k);
    }
  }

  // ---- runs ----

  /** The machine after the inputs, and everything it did. */
  function Run(autolink: bool, inputs: seq<Input>): Outcome
    decreases |inputs|
  {
    if inputs == [] then (New(autolink), [])
    else
      var o := Run(autolink, inputs[..|inputs| - 1]);
      Then(o, Step(o.0, inputs[|inputs| - 1]))
  }

  function LedgerOf(watched: Token, outputs: seq<Output>): Ledger { NoteAll(Blank(watched), outputs) }

  /** The tables and everything done so far, whichever caller is watched. */
  ghost predicate Consistent(m: Machine, outputs: seq<Output>) {
    forall t :: Inv(m, LedgerOf(t, outputs))
  }

  lemma StepConsistent(m: Machine, outputs: seq<Output>, i: Input)
    requires Consistent(m, outputs)
    ensures Consistent(Step(m, i).0, outputs + Step(m, i).1)
    ensures i.Tick? ==> Timely(Step(m, i).0, i.clock)
  {
    forall t ensures Inv(Step(m, i).0, LedgerOf(t, outputs + Step(m, i).1)) {
      assert Inv(m, LedgerOf(t, outputs));
      StepInv(m, LedgerOf(t, outputs), i);
      NoteConcat(Blank(t), outputs, Step(m, i).1);
    }
    if i.Tick? {
      assert Inv(m, LedgerOf(0, outputs));
      TickInv(m, LedgerOf(0, outputs), i);
    }
  }

  lemma {:induction false} RunInv(autolink: bool, inputs: seq<Input>, t: Token)
    ensures var o := Run(autolink, inputs); Inv(o.0, LedgerOf(t, o.1))
    decreases |inputs|
  {
    if inputs != [] {
      var init, last := inputs[..|inputs| - 1], inputs[|inputs| - 1];
      RunInv(autolink, init, t);
      var o := Run(autolink, init);
      StepInv(o.0, LedgerOf(t, o.1), last);
      ThenAfter(Blank(t), o, Step(o.0, last));
    }
  }

  ghost predicate DropsNone(s: seq<Output>) { forall i :: 0 <= i < |s| ==> !s[i].Abandon? }

  lemma CommandDropsNone(m: Machine, i: Input)
    requires !i.Close? && !i.Tick?
    ensures DropsNone(Step(m, i).1)
  {}

  lemma TickDropsNone(m: Machine, i: Input)
    requires i.Tick?
    ensures DropsNone(DoTick(m, i).1)
  {
    var a := TickHost(m, i.host, i.port, i.clock.host);
    assert DropsNone(a.1);
    var b := TickLanding(a.0, i.landed, i.clock.landing);
    assert DropsNone(b.1);
    var c := TickJoin(b.0, i.join, i.clock.join);
    assert DropsNone(c.1);
    var d := TickDial(c.0, i.look, i.clock.dial);
    assert DropsNone(d.1);
    assert DropsNone(a.1 + b.1 + c.1 + d.1);
  }

  lemma StepDropsNone(m: Machine, l: Ledger, i: Input)
    requires !i.Close?
    ensures After(l, Step(m, i)).abandoned == l.abandoned
  {
    if i.Tick? {
      TickDropsNone(m, i);
    } else {
      CommandDropsNone(m, i);
    }
    NoneAbandoned(l, Step(m, i).1);
  }

  lemma {:induction false} NoneAbandoned(l: Ledger, s: seq<Output>)
    requires DropsNone(s)
    ensures NoteAll(l, s).abandoned == l.abandoned
    decreases |s|
  {
    if s != [] {
      NoneAbandoned(Note(l, s[0]), s[1..]);
    }
  }

  lemma {:induction false} RunDropsNone(autolink: bool, inputs: seq<Input>, t: Token)
    requires forall k :: 0 <= k < |inputs| ==> !inputs[k].Close?
    ensures LedgerOf(t, Run(autolink, inputs).1).abandoned == 0
    decreases |inputs|
  {
    if inputs != [] {
      var init, last := inputs[..|inputs| - 1], inputs[|inputs| - 1];
      RunDropsNone(autolink, init, t);
      RunInv(autolink, init, t);
      var o := Run(autolink, init);
      StepDropsNone(o.0, LedgerOf(t, o.1), last);
      ThenAfter(Blank(t), o, Step(o.0, last));
    }
  }

  /** Up to the close, a caller has been answered exactly as often as it asked, but for the asks still pending. */
  lemma EveryCallerIsOwedOrAnswered(autolink: bool, inputs: seq<Input>, t: Token)
    ensures var o := Run(autolink, inputs);
            var l := LedgerOf(t, o.1);
            && l.asked == l.answered + l.abandoned + Pending(o.0, t)
            && ((forall k :: 0 <= k < |inputs| ==> !inputs[k].Close?) ==> l.abandoned == 0)
  {
    RunInv(autolink, inputs, t);
    if forall k :: 0 <= k < |inputs| ==> !inputs[k].Close? {
      RunDropsNone(autolink, inputs, t);
    }
  }

  /** Platform joins never overlap, and the dials are bound exactly while joined. */
  lemma JoinsNeverOverlap(autolink: bool, inputs: seq<Input>)
    ensures var o := Run(autolink, inputs);
            var l := LedgerOf(0, o.1);
            && !l.overlapped
            && (l.requested <==> !o.0.join.Idle?)
            && (l.bound <==> o.0.join.Joined?)
  {
    RunInv(autolink, inputs, 0);
  }

  lemma {:induction false} DialsSpread(dials: seq<nat>, i: nat)
    requires DialsOk(dials) && i < |dials|
    ensures dials[0] + i * REDIAL <= dials[i]
  {
    if i > 0 {
      DialsSpread(dials, i - 1);
    }
  }

  /**
   One join dials at most thirty times, two seconds apart and within a minute of its first
   dial, and gives up at most once. A plan that stands ends that minute and waits for exactly
   one thing.
   */
  lemma DialsAreBounded(autolink: bool, inputs: seq<Input>)
    ensures var o := Run(autolink, inputs);
            var l := LedgerOf(0, o.1);
            && |l.dials| <= 30
            && (forall i :: 0 <= i < |l.dials| - 1 ==> l.dials[i] + REDIAL <= l.dials[i + 1])
            && (forall i :: 0 <= i < |l.dials| ==> l.dials[i] < l.dials[0] + DIAL_BOUND)
            && l.gaveUp <= 1
            && (o.0.join.Joined? && o.0.join.dial.Some? ==>
                  && l.dials != [] && o.0.join.dial.value.bound == l.dials[0] + DIAL_BOUND
                  && (o.0.join.dial.value.inFlight.Some? <==> o.0.join.dial.value.next.None?)
                  && l.gaveUp == 0)
  {
    RunInv(autolink, inputs, 0);
    var dials := LedgerOf(0, Run(autolink, inputs).1).dials;
    if |dials| > 30 {
      DialsSpread(dials, 30);
      assert false;
    }
  }

  /** No request survives a tick that read the clock at or past its bound, and no plan its minute. */
  lemma NothingOutlivesItsBound(autolink: bool, inputs: seq<Input>)
    requires inputs != [] && inputs[|inputs| - 1].Tick?
    ensures Timely(Run(autolink, inputs).0, inputs[|inputs| - 1].clock)
  {
    var init, last := inputs[..|inputs| - 1], inputs[|inputs| - 1];
    RunInv(autolink, init, 0);
    var o := Run(autolink, init);
    TickInv(o.0, LedgerOf(0, o.1), last);
  }
}
