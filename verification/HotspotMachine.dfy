/** The hotspot machine as it runs, its fields replaced in place, each method taking the table's step. */
module HotspotMachine {
  import opened Common
  import opened Hotspot
  import HotspotRuns

  class HotspotTables {
    const autolink: bool
    var host: Host
    var personal: Personal
    var join: Join
    var log: seq<Output>

    ghost function State(): Machine
      reads this
    {
      Machine(autolink, host, personal, join)
    }

    /** No caller lost, no join over another and no dial out of turn, over everything done so far. */
    ghost predicate Valid()
      reads this
    {
      HotspotRuns.Consistent(State(), log)
    }

    constructor (autolink: bool)
      ensures State() == New(autolink) && log == [] && Valid()
    {
      this.autolink := autolink;
      host, personal, join, log := Off, PersonalIdle, Idle, [];
    }

    method SendAll(replies: seq<Token>, r: Reply)
      modifies `log
      ensures log == old(log) + AnswerAll(replies, r)
    {
      ghost var all := AnswerAll(replies, r);
      for i := 0 to |replies|
        invariant log == old(log) + all[..i]
      {
        log := log + [Answer(replies[i], r)];
        assert all[..i + 1] == all[..i] + [all[i]];
      }
      assert all[..|replies|] == all;
    }

    method HostHotspot(token: Token, refusal: Option<HostError>, port: Option<nat>, now: nat)
      requires Valid()
      modifies this
      ensures State() == HandleHost(old(State()), token, refusal, port, now).0
      ensures log == old(log) + HandleHost(old(State()), token, refusal, port, now).1
      ensures Valid()
    {
      HotspotRuns.StepConsistent(State(), log, HostCommand(token, refusal, port, now));
      log := log + [Asked(token)];
      match host
      case Off =>
        log := log + [RequestHost];
        if refusal.Some? {
          log := log + [Answer(token, HostRefused(refusal.value))];
          assert log == old(log) + [Asked(token), RequestHost, Answer(token, HostRefused(refusal.value))];
        } else {
          host := Starting([token], now + HOST_BOUND);
        }
      case Starting(replies, deadline) => host := Starting(replies + [token], deadline);
      case Hosting(offer) => log := log + [Answer(token, Hosted(offer.(port := port)))];
    }

    method StopHost()
      requires Valid()
      modifies this
      ensures State() == HandleStop(old(State())).0 && log == old(log) + HandleStop(old(State())).1
      ensures Valid()
    {
      HotspotRuns.StepConsistent(State(), log, StopHostCommand);
      var standing := !host.Off? || personal.PersonalHosting?;
      if host.Starting? {
        SendAll(host.replies, HostRefused(Failed));
      }
      host, personal := Off, PersonalIdle;
      if standing {
        log := log + [StopHosting];
      }
    }

    method LeaveOrCancel()
      modifies `join, `log
      ensures join == Idle && log == old(log) + Leaving(old(join))
    {
      match join {
        case Idle =>
        case Requesting(_, reply, _) => log := log + [LeaveJoin, Answer(reply, JoinRefused(Declined))];
        case Joined(_) => log := log + [LeaveJoin, Unbind];
      }
      join := Idle;
    }

    method JoinNetwork(token: Token, offer: Offer, refusal: Option<JoinError>, now: nat)
      requires Valid()
      modifies this
      ensures State() == HandleJoin(old(State()), token, offer, refusal, now).0
      ensures log == old(log) + HandleJoin(old(State()), token, offer, refusal, now).1
      ensures Valid()
    {
      HotspotRuns.StepConsistent(State(), log, JoinCommand(token, offer, refusal, now));
      log := log + [Asked(token)];
      LeaveOrCancel();
      if refusal.Some? {
        log := log + [RequestJoin, JoinNotTaken, Answer(token, JoinRefused(refusal.value))];
      } else {
        log := log + [RequestJoin];
        join := Requesting(offer, token, now + JOIN_BOUND);
      }
    }

    method LookAtHost(status: HostStatus, port: Option<nat>, now: nat)
      modifies `host, `log
      ensures State() == TickHost(old(State()), status, port, now).0
      ensures log == old(log) + TickHost(old(State()), status, port, now).1
    {
      if host.Starting? {
        var replies, deadline := host.replies, host.deadline;
        match status
        case Started(ssid, passphrase, wpa3) =>
          var offer := Offer(ssid, passphrase, wpa3, port);
          host := Hosting(offer);
          SendAll(replies, Hosted(offer));
        case HostFailed(error) =>
          host := Off;
          SendAll(replies, HostRefused(error));
        case Stopped =>
          host := Off;
          SendAll(replies, HostRefused(Failed));
        case HostPending =>
          if now >= deadline {
            host := Off;
            log := log + [StopHosting];
            SendAll(replies, HostRefused(HostTimedOut));
          }
      } else if host.Hosting? && status.Stopped? {
        host := Off;
        log := log + [Emit(HotspotStopped)];
      }
    }

    method LookAtLanding(landed: bool, now: nat)
      modifies `personal, `log
      ensures State() == TickLanding(old(State()), landed, now).0
      ensures log == old(log) + TickLanding(old(State()), landed, now).1
    {
      if personal.PersonalHosting? && personal.landing.Some? {
        if landed {
          personal := personal.(landing := None);
        } else if now >= personal.landing.value {
          personal := personal.(landing := None);
          log := log + [Emit(HotspotUnreached)];
        }
      }
    }

    method LookAtJoin(status: JoinStatus, now: nat)
      modifies `join, `log
      ensures State() == TickJoin(old(State()), status, now).0
      ensures log == old(log) + TickJoin(old(State()), status, now).1
    {
      if join.Requesting? {
        var offer, reply, deadline := join.offer, join.reply, join.deadline;
        match status
        case Available(address, prefix, gateway) =>
          log := log + [Bind(address, prefix)];
          var dial: Option<DialPlan> := None;
          if autolink && offer.port.Some? {
            log := log + [Dial((gateway, offer.port.value), now)];
            dial := Some(StartDial((gateway, offer.port.value), now));
          }
          join := Joined(dial);
          log := log + [Answer(reply, JoinedAt(gateway))];
        case Unavailable =>
          join := Idle;
          log := log + [JoinEnded, Answer(reply, JoinRefused(Declined))];
        case Lost =>
          join := Idle;
          log := log + [JoinEnded, Answer(reply, JoinRefused(Declined))];
        case JoinPending =>
          if deadline <= now {
            join := Idle;
            log := log + [LeaveJoin, Answer(reply, JoinRefused(JoinTimedOut))];
          }
      } else if join.Joined? && status.Lost? {
        join := Idle;
        log := log + [JoinEnded, Unbind, Emit(HotspotLeft)];
      }
    }

    method LookAtDial(look: DialLook, now: nat)
      modifies `join, `log
      ensures State() == TickDial(old(State()), look, now).0
      ensures log == old(log) + TickDial(old(State()), look, now).1
    {
      if join.Joined? && join.dial.Some? {
        var plan := join.dial.value;
        var linked, blocked := false, false;
        if plan.inFlight.Some? {
          var issued := plan.inFlight.value;
          match look
          case Linked => plan, linked := plan.(inFlight := None), true;
          case BlockedByVpn => plan, blocked := plan.(inFlight := None), true;
          case DialFailed => plan := plan.(inFlight := None, next := Some(issued + REDIAL));
          case NoAnswer =>
        }
        if linked {
          join := Joined(None);
        } else if blocked {
          join := Joined(None);
          log := log + [Emit(JoinedNetworkBlockedByVpn)];
        } else if now >= plan.bound {
          join := Joined(None);
          log := log + [Emit(JoinedHostUnreached)];
        } else if plan.inFlight.None? && plan.next.Some? && now >= plan.next.value {
          log := log + [Dial(plan.address, now)];
          join := Joined(Some(plan.(inFlight := Some(now), next := None)));
        } else {
          join := Joined(Some(plan));
        }
      }
    }

    /** The host row, the landing, the join row, then the dial. */
    method LookAtRows(i: Input)
      requires i.Tick?
      modifies `host, `personal, `join, `log
      ensures State() == DoTick(old(State()), i).0 && log == old(log) + DoTick(old(State()), i).1
    {
      LookAtHost(i.host, i.port, i.clock.host);
      LookAtLanding(i.landed, i.clock.landing);
      LookAtJoin(i.join, i.clock.join);
      LookAtDial(i.look, i.clock.dial);
    }

    /** One look at the backends, after which nothing stands past its bound. */
    method Look(i: Input)
      requires i.Tick? && Valid()
      modifies this
      ensures State() == DoTick(old(State()), i).0 && log == old(log) + DoTick(old(State()), i).1
      ensures Valid() && HotspotRuns.Timely(State(), i.clock)
    {
      HotspotRuns.StepConsistent(State(), log, i);
      LookAtRows(i);
    }
  }
}
