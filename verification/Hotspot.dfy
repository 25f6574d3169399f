/**
 The hosted and joined hotspots: two tables steered by commands and looked at on ticks.
 The platform's standing, the peer port and every clock reading arrive as inputs, the
 calls the machine makes and the answers it sends leave as outputs. Times are nanoseconds.
 */
module Hotspot {
  import opened Common

  const SECOND: nat := 1_000_000_000
  const HOST_BOUND: nat := 30 * SECOND
  const JOIN_BOUND: nat := 60 * SECOND
  const DIAL_BOUND: nat := 60 * SECOND
  const REDIAL: nat := 2 * SECOND

  datatype HostError = Unsupported | Permission | Failed | HostTimedOut | OtherHost(code: nat)
  datatype JoinError = JoinUnsupported | JoinPermission | Declined | JoinTimedOut | OtherJoin(code: nat)

  datatype Offer = Offer(ssid: string, passphrase: string, wpa3: bool, port: Option<nat>)

  type Address = (Bytes, nat)

  /** A caller waiting for its one answer. */
  type Token = nat

  datatype HostStatus = HostPending | Started(ssid: string, passphrase: string, wpa3: bool) | HostFailed(error: HostError) | Stopped
  datatype JoinStatus = JoinPending | Available(address: Bytes, prefix: nat, gateway: Bytes) | Unavailable | Lost

  /** What a look at the dial in flight finds. A dropped sender reads as a failed dial. */
  datatype DialLook = Linked | DialFailed | BlockedByVpn | NoAnswer

  datatype Host = Off | Starting(replies: seq<Token>, deadline: nat) | Hosting(offer: Offer)
  datatype Personal = PersonalIdle | PersonalHosting(typed: Offer, landing: Option<nat>)
  datatype DialPlan = DialPlan(address: Address, bound: nat, inFlight: Option<nat>, next: Option<nat>)
  datatype Join = Idle | Requesting(offer: Offer, reply: Token, deadline: nat) | Joined(dial: Option<DialPlan>)

  datatype Machine = Machine(autolink: bool, host: Host, personal: Personal, join: Join)

  datatype Notice = HotspotStopped | HotspotUnreached | HotspotLeft | JoinedHostUnreached | JoinedNetworkBlockedByVpn

  datatype Reply = Hosted(offer: Offer) | HostRefused(error: HostError) | JoinedAt(gateway: Bytes) | JoinRefused(joinError: JoinError)

  datatype Output =
    | Asked(token: Token)
    | Answer(token: Token, reply: Reply)
    | Abandon(token: Token)
    | RequestHost
    | StopHosting
    | RequestPersonal
    | RequestJoin
    | JoinNotTaken
    | LeaveJoin
    | JoinEnded
    | Bind(address: Bytes, prefix: nat)
    | Unbind
    | Dial(to: Address, at: nat)
    | Emit(notice: Notice)

  datatype Input =
    | HostCommand(token: Token, refusal: Option<HostError>, port: Option<nat>, now: nat)
    | StopHostCommand
    | PersonalCommand(token: Token, ssid: string, passphrase: string, refusal: Option<HostError>, port: Option<nat>)
    | OfferHandedOut(now: nat)
    | JoinCommand(token: Token, offer: Offer, joinRefusal: Option<JoinError>, now: nat)
    | LeaveCommand
    | Tick(host: HostStatus, landed: bool, join: JoinStatus, look: DialLook, port: Option<nat>, clock: Clock)
    | Close

  /** The clock as one tick reads it: for the host's bound, the landing, the join and the dial. */
  datatype Clock = Clock(host: nat, landing: nat, join: nat, dial: nat)

  type Outcome = (Machine, seq<Output>)

  function AnswerAll(replies: seq<Token>, r: Reply): (s: seq<Output>)
    ensures |s| == |replies| && forall i :: 0 <= i < |s| ==> s[i] == Answer(replies[i], r)
  {
    seq(|replies|, i requires 0 <= i < |replies| => Answer(replies[i], r))
  }

  // ---- commands ----

  function HandleHost(m: Machine, token: Token, refusal: Option<HostError>, port: Option<nat>, now: nat): Outcome {
    match m.host
    case Off =>
      if refusal.Some? then (m, [Asked(token), RequestHost, Answer(token, HostRefused(refusal.value))])
      else (m.(host := Starting([token], now + HOST_BOUND)), [Asked(token), RequestHost])
    case Starting(replies, deadline) => (m.(host := Starting(replies + [token], deadline)), [Asked(token)])
    case Hosting(offer) => (m, [Asked(token), Answer(token, Hosted(offer.(port := port)))])
  }

  function HandleStop(m: Machine): Outcome {
    var replies := if m.host.Starting? then AnswerAll(m.host.replies, HostRefused(Failed)) else [];
    (m.(host := Off, personal := PersonalIdle),
     replies + if !m.host.Off? || m.personal.PersonalHosting? then [StopHosting] else [])
  }

  function HandlePersonal(m: Machine, token: Token, ssid: string, passphrase: string, refusal: Option<HostError>, port: Option<nat>): Outcome {
    if refusal.Some? then (m, [Asked(token), RequestPersonal, Answer(token, HostRefused(refusal.value))])
    else
      var landing := if m.personal.PersonalHosting? then m.personal.landing else None;
      var offer := Offer(ssid, passphrase, false, port);
      (m.(personal := PersonalHosting(offer, landing)), [Asked(token), RequestPersonal, Answer(token, Hosted(offer))])
  }

  /** What it takes to be rid of whatever join there is. */
  function Leaving(join: Join): seq<Output> {
    match join
    case Idle => []
    case Requesting(_, reply, _) => [LeaveJoin, Answer(reply, JoinRefused(Declined))]
    case Joined(_) => [LeaveJoin, Unbind]
  }

  function HandleJoin(m: Machine, token: Token, offer: Offer, refusal: Option<JoinError>, now: nat): Outcome {
    if refusal.Some? then
      (m.(join := Idle), [Asked(token)] + Leaving(m.join) + [RequestJoin, JoinNotTaken, Answer(token, JoinRefused(refusal.value))])
    else
      (m.(join := Requesting(offer, token, now + JOIN_BOUND)), [Asked(token)] + Leaving(m.join) + [RequestJoin])
  }

  // ---- the tick ----

  function TickHost(m: Machine, status: HostStatus, port: Option<nat>, now: nat): Outcome {
    match m.host
    case Starting(replies, deadline) =>
      (match status
       case Started(ssid, passphrase, wpa3) =>
         var offer := Offer(ssid, passphrase, wpa3, port);
         (m.(host := Hosting(offer)), AnswerAll(replies, Hosted(offer)))
       case HostFailed(error) => (m.(host := Off), AnswerAll(replies, HostRefused(error)))
       case Stopped => (m.(host := Off), AnswerAll(replies, HostRefused(Failed)))
       case HostPending =>
         if now >= deadline then (m.(host := Off), [StopHosting] + AnswerAll(replies, HostRefused(HostTimedOut))) else (m, []))
    case Hosting(_) => if status.Stopped? then (m.(host := Off), [Emit(HotspotStopped)]) else (m, [])
    case Off => (m, [])
  }

  function TickLanding(m: Machine, landed: bool, now: nat): Outcome {
    if m.personal.PersonalHosting? && m.personal.landing.Some? then
      if landed then (m.(personal := m.personal.(landing := None)), [])
      else if now >= m.personal.landing.value then (m.(personal := m.personal.(landing := None)), [Emit(HotspotUnreached)])
      else (m, [])
    else (m, [])
  }

  function StartDial(address: Address, now: nat): DialPlan { DialPlan(address, now + DIAL_BOUND, Some(now), None) }

  function TickJoin(m: Machine, status: JoinStatus, now: nat): Outcome {
    match m.join
    case Requesting(offer, reply, deadline) =>
      (match status
       case Available(address, prefix, gateway) =>
         if m.autolink && offer.port.Some? then
           var to := (gateway, offer.port.value);
           (m.(join := Joined(Some(StartDial(to, now)))), [Bind(address, prefix), Dial(to, now), Answer(reply, JoinedAt(gateway))])
         else (m.(join := Joined(None)), [Bind(address, prefix), Answer(reply, JoinedAt(gateway))])
       case Unavailable => (m.(join := Idle), [JoinEnded, Answer(reply, JoinRefused(Declined))])
       case Lost => (m.(join := Idle), [JoinEnded, Answer(reply, JoinRefused(Declined))])
       case JoinPending =>
         if deadline <= now then (m.(join := Idle), [LeaveJoin, Answer(reply, JoinRefused(JoinTimedOut))]) else (m, []))
    case Joined(_) => if status.Lost? then (m.(join := Idle), [JoinEnded, Unbind, Emit(HotspotLeft)]) else (m, [])
    case Idle => (m, [])
  }

  /** The plan once the dial in flight has been looked at. */
  function Looked(plan: DialPlan, look: DialLook): DialPlan {
    if plan.inFlight.Some? && !look.NoAnswer? then
      plan.(inFlight := None, next := if look.DialFailed? then Some(plan.inFlight.value + REDIAL) else plan.next)
    else plan
  }

  function TickDial(m: Machine, look: DialLook, now: nat): Outcome {
    if m.join.Joined? && m.join.dial.Some? then
      var plan := Looked(m.join.dial.value, look);
      var answered := m.join.dial.value.inFlight.Some?;
      if answered && look.Linked? then (m.(join := Joined(None)), [])
      else if answered && look.BlockedByVpn? then (m.(join := Joined(None)), [Emit(JoinedNetworkBlockedByVpn)])
      else if now >= plan.bound then (m.(join := Joined(None)), [Emit(JoinedHostUnreached)])
      else if plan.inFlight.None? && plan.next.Some? && now >= plan.next.value then
        (m.(join := Joined(Some(plan.(inFlight := Some(now), next := None)))), [Dial(plan.address, now)])
      else (m.(join := Joined(Some(plan))), [])
    else (m, [])
  }

  function Then(o: Outcome, next: Outcome): Outcome { (next.0, o.1 + next.1) }

  function DoTick(m: Machine, i: Input): Outcome
    requires i.Tick?
  {
    var a := TickHost(m, i.host, i.port, i.clock.host);
    var b := Then(a, TickLanding(a.0, i.landed, i.clock.landing));
    var c := Then(b, TickJoin(b.0, i.join, i.clock.join));
    Then(c, TickDial(c.0, i.look, i.clock.dial))
  }

  /** The client closing: what waits is dropped unanswered. */
  function DoClose(m: Machine): Outcome {
    (m.(host := Off, personal := PersonalIdle, join := Idle),
     (if !m.host.Off? || m.personal.PersonalHosting? then [StopHosting] else [])
     + (if m.join.Idle? then [] else if m.join.Joined? then [LeaveJoin, Unbind] else [LeaveJoin, Abandon(m.join.reply)])
     + (if m.host.Starting? then seq(|m.host.replies|, k requires 0 <= k < |m.host.replies| => Abandon(m.host.replies[k])) else []))
  }

  function Step(m: Machine, i: Input): Outcome {
    match i
    case HostCommand(token, refusal, port, now) => HandleHost(m, token, refusal, port, now)
    case StopHostCommand => HandleStop(m)
    case PersonalCommand(token, ssid, passphrase, refusal, port) => HandlePersonal(m, token, ssid, passphrase, refusal, port)
    case OfferHandedOut(now) =>
      (if m.personal.PersonalHosting? then m.(personal := m.personal.(landing := Some(now + JOIN_BOUND))) else m, [])
    case JoinCommand(token, offer, refusal, now) => HandleJoin(m, token, offer, refusal, now)
    case LeaveCommand => (m.(join := Idle), Leaving(m.join))
    case Tick(_, _, _, _, _, _) => DoTick(m, i)
    case Close => DoClose(m)
  }

  function New(autolink: bool): Machine { Machine(autolink, Off, PersonalIdle, Idle) }
}
