/**
 The writer a connection is bound to. A restore that retires the replica's own device leaves
 the connection bound to it. Here is when that happens over a run, how long it lasts, and that
 nothing is sent meanwhile.
 */
module WriterBound {
  import opened Common
  import opened WriterNames
  import opened WriterQueues
  import opened WriterDisk
  import opened WriterCarry
  import opened WriterState
  import opened WriterRuns
  import opened WriterConservation
  import opened WriterTheorems
  import opened WriterFatal

  predicate BoundTo(bound: Option<WriterRef>, keys: set<Digest>) { bound.Some? && bound.value.Device? && bound.value.key in keys }

  /** The bound writer is a device whose key is retired. */
  predicate BoundRetired(r: Replica) { BoundTo(r.bound, r.retired) }

  /** Enough sequences stand behind the heir for the device's tail. */
  predicate HeirHasRoom(q: Queues, dead: seq<WriterRef>) { HasRoom(At(q, NumberOrUnissued(q)), Weight(q, dead)) }

  /** A restore of an archive that names the bound device as one of its writers, that device being the one in use. */
  predicate RetiresBound(r: Replica, e: Event) {
    && e.Restore? && r.bound.Some? && r.bound.value.Device?
    && e.cert == Some(r.bound.value.key) && r.bound.value.key !in r.retired
    && r.bound.value in Retirable(e.archive) && HeirHasRoom(r.queues, [r.bound.value])
  }

  /** The acknowledgement answers what the handshake asked for. */
  predicate Accepts(r: Replica, cert: Option<Digest>, standing: bool, grant: Option<Grant>) {
    match Handshake(r, cert, standing)
    case AskIssue => grant.Some? && grant.value.number != 0 && grant.value.frontier == 0
    case AskNumber(n) => grant.Some? && grant.value.number == n
    case AskDevice => grant.None?
  }

  /** The events that take a connection off a retired device. */
  ghost predicate Unbinds(r: Replica, e: Event) {
    match e
    case Attach(cert, standing, _, Acked(grant)) => Accepts(r, cert, standing, grant)
    case BindAnswered(key, _) => key !in r.retired
    case BindRefused(cert) => HeirHasRoom(r.queues, Excluded(r, cert))
    case DeviceRevoked(cert) => HeirHasRoom(r.queues, Excluded(r, cert))
    case WriterFatal(cert) => HeirHasRoom(r.queues, Excluded(r, cert))
    case Disconnect => true
    case Die => true
    case _ => false
  }

  // ---- when a carry goes through ----

  lemma CarriesExactly(c: Chain, r: Replica, dead: seq<WriterRef>, target: WriterRef)
    requires Inv(c, r) && NoRepeats(dead)
    ensures CarryTo(c, r, dead, target).Some? <==> HasRoom(At(r.queues, target), Weight(r.queues, dead))
  {
    InvHolds(c, r);
    TailsStayReadable(c, r, dead);
    CarrySucceeds(c, r.queues, dead, target);
  }

  lemma CarryLeavesBound(c: Chain, r: Replica, dead: seq<WriterRef>, target: WriterRef)
    requires CarryTo(c, r, dead, target).Some?
    ensures CarryTo(c, r, dead, target).value.bound == r.bound
    ensures CarryTo(c, r, dead, target).value.retired == r.retired + KeysOf(dead)
  {}

  lemma NumbersHaveNoKeys(dead: seq<WriterRef>)
    requires forall w :: w in dead ==> w.Number?
    ensures KeysOf(dead) == {}
  {}

  // ---- the handshake ----

  lemma DeviceGranted(c: Chain, r: Replica, grant: Option<Grant>, cert: Option<Digest>, standing: bool)
    requires Inv(c, r) && Handshake(r, cert, standing).AskDevice?
    ensures Granted(c, r, AskDevice, grant, cert).Some? <==> grant.None?
  {
    assert cert.Some? && Weight(r.queues, [UNISSUED]) == 0 by {
      PlanOfTail(r.queues, UNISSUED);
    }
    CarriesExactly(c, r, [UNISSUED], Device(cert.value));
  }

  lemma NumberGranted(c: Chain, r: Replica, grant: Option<Grant>, cert: Option<Digest>, standing: bool)
    requires Inv(c, r) && Handshake(r, cert, standing).AskIssue?
    requires grant.Some? ==> grant.value.number !in r.history.issued
    ensures Granted(c, r, AskIssue, grant, cert).Some? <==> grant.Some? && grant.value.number != 0 && grant.value.frontier == 0
  {
    if grant.Some? && grant.value.number != 0 && grant.value.frontier == 0 {
      assert OneNumber(r.queues) by {
        InvHolds(c, r);
      }
      AskedIssueAlone(r, cert, standing);
      IssueInv(c, r, grant.value.number);
    }
  }

  lemma GrantedExactly(c: Chain, r: Replica, cert: Option<Digest>, standing: bool, grant: Option<Grant>)
    requires Inv(c, r) && (Handshake(r, cert, standing).AskIssue? && grant.Some? ==> grant.value.number !in r.history.issued)
    ensures Granted(c, r, Handshake(r, cert, standing), grant, cert).Some? <==> Accepts(r, cert, standing, grant)
  {
    match Handshake(r, cert, standing)
    case AskIssue => NumberGranted(c, r, grant, cert, standing);
    case AskNumber(n) =>
    case AskDevice => DeviceGranted(c, r, grant, cert, standing);
  }

  lemma ConnectGranted(c: Chain, r: Replica, cert: Option<Digest>, standing: bool, keys: bool, grant: Option<Grant>)
    ensures Connect(c, r, cert, standing, keys, grant).Some? <==> Granted(c, r, Handshake(r, cert, standing), grant, cert).Some?
  {}

  lemma AttachLeaves(c: Chain, r: Replica, cert: Option<Digest>, standing: bool, keys: bool, answer: Answer)
    requires Inv(c, r) && Sane(r, Attach(cert, standing, keys, answer))
    ensures BoundRetired(Attached(c, r, cert, standing, keys, answer)) <==>
            BoundRetired(r) && !Unbinds(r, Attach(cert, standing, keys, answer))
  {
    match answer
    case Lost =>
    case Refused => TurnedLeaves(c, r, Handshake(r, cert, standing));
    case Acked(grant) =>
      GrantedExactly(c, r, cert, standing, grant);
      ConnectGranted(c, r, cert, standing, keys, grant);
      if Connect(c, r, cert, standing, keys, grant).Some? {
        ConnectBinds(c, r, cert, standing, keys, grant);
      }
  }

  lemma TurnedLeaves(c: Chain, r: Replica, request: Request)
    requires Inv(c, r) && (request.AskNumber? ==> request.number != 0)
    ensures Turned(c, r, request).bound == r.bound && Turned(c, r, request).retired == r.retired
  {
    if request.AskNumber? {
      var dead := Number(request.number);
      assert OneNumber(r.queues) by {
        InvHolds(c, r);
      }
      TailTargetOwns(r.queues, r.retired, dead);
      NumbersHaveNoKeys([dead]);
    }
  }

  // ---- binds, exclusions and fatal errors ----

  lemma BindRetiresNone(c: Chain, r: Replica, key: Digest)
    ensures match CarryTo(c, r, Numbers(r.queues), Device(key))
            case None => true
            case Some(r') => r'.bound == r.bound && r'.retired == r.retired
  {
    NumbersHaveNoKeys(Numbers(r.queues));
    if CarryTo(c, r, Numbers(r.queues), Device(key)).Some? {
      CarryLeavesBound(c, r, Numbers(r.queues), Device(key));
    }
  }

  lemma BindsThere(c: Chain, r: Replica, key: Digest, frontier: nat)
    requires key !in r.retired && Storable(Raised(At(r.queues, Device(key)), frontier))
    ensures BindTo(c, r, key, frontier).bound == Some(Device(key)) && BindTo(c, r, key, frontier).retired == r.retired
  {
    BindRetiresNone(c, Raise(Ensure(r, Device(key)), Device(key), frontier).(bound := Some(Device(key))), key);
  }

  lemma BindLeaves(c: Chain, r: Replica, key: Digest, frontier: nat)
    requires Inv(c, r) && Storable(frontier + 1)
    ensures BoundRetired(BindTo(c, r, key, frontier)) <==> BoundRetired(r) && key in r.retired
  {
    if key !in r.retired {
      assert QueueOk(At(r.queues, Device(key))) by {
        InvHolds(c, r);
      }
      BindsThere(c, r, key, frontier);
    }
  }

  lemma ExclusionLeaves(c: Chain, r: Replica, cert: Option<Digest>)
    requires Inv(c, r)
    ensures BoundRetired(Exclude(c, r, cert)) <==> BoundRetired(r) && !HeirHasRoom(r.queues, Excluded(r, cert))
  {
    var dead, target := Excluded(r, cert), NumberOrUnissued(r.queues);
    ExcludedApart(r, cert);
    CarriesExactly(c, r, dead, target);
    if CarryTo(c, r, dead, target).Some? {
      CarryLeavesBound(c, r, dead, target);
    }
  }

  lemma FatalLeaves(c: Chain, r: Replica, cert: Option<Digest>)
    requires Inv(c, r)
    ensures BoundRetired(Fatal(c, r, cert)) <==> BoundRetired(r) && !HeirHasRoom(r.queues, Excluded(r, cert))
  {
    if r.bound.Some? && r.bound.value.Device? {
      ExclusionLeaves(c, r, cert);
    } else if r.bound.Some? {
      LiveBinds(c, r, r.bound.value);
    }
  }

  // ---- restores ----

  lemma ReadyLeaves(c: Chain, r: Replica, cert: Option<Digest>, archive: seq<Archived>)
    requires ReadyToRestore(c, r, cert, archive).Some?
    ensures var (r', w) := ReadyToRestore(c, r, cert, archive).value;
            && r'.bound == r.bound
            && r'.retired == r.retired + if ChooseWriter(r, cert) in Retirable(archive) then KeysOf([ChooseWriter(r, cert)]) else {}
  {}

  lemma RestoredLeaves(c: Chain, r: Replica, cert: Option<Digest>, archive: seq<Archived>)
    ensures var r' := Restored(c, r, cert, archive);
            && r'.bound == r.bound
            && r'.retired == r.retired + if ReadyToRestore(c, r, cert, archive).Some? && ChooseWriter(r, cert) in Retirable(archive)
                                        then KeysOf([ChooseWriter(r, cert)]) else {}
  {
    if ReadyToRestore(c, r, cert, archive).Some? {
      ReadyLeaves(c, r, cert, archive);
      var (r1, w) := ReadyToRestore(c, r, cert, archive).value;
      AppendAllBinds(c, r1, w, archive);
    }
  }

  lemma DeviceRestored(c: Chain, r: Replica, k: Digest, archive: seq<Archived>)
    requires Inv(c, r) && k !in r.retired && Device(k) in Retirable(archive)
    ensures ReadyToRestore(c, r, Some(k), archive).Some? <==> HeirHasRoom(r.queues, [Device(k)])
  {
    var r1 := r.(disk := r.disk.(retires := r.disk.retires + Retirable(archive)));
    GoodAside(c, r, r.bound, r.connected, r.disk.retires + Retirable(archive));
    CarriesExactly(c, r1, [Device(k)], TailTarget(r.queues, Device(k)));
  }

  lemma RestoreLeaves(c: Chain, r: Replica, cert: Option<Digest>, archive: seq<Archived>)
    requires Inv(c, r)
    ensures BoundRetired(Restored(c, r, cert, archive)) <==> BoundRetired(r) || RetiresBound(r, Restore(cert, archive))
  {
    RestoredLeaves(c, r, cert, archive);
    if cert.Some? && cert.value !in r.retired && Device(cert.value) in Retirable(archive) {
      DeviceRestored(c, r, cert.value, archive);
    }
  }

  // ---- every event, every run ----

  lemma AttachStep(c: Chain, r: Replica, e: Event, r': Replica)
    requires Inv(c, r) && Steps(c, r, e, r') && e.Attach?
    ensures BoundRetired(r') <==> BoundRetired(r) && !Unbinds(r, e)
  {
    TookAttach(c, r, e.cert, e.standing, e.keys, e.answer, r');
    AttachLeaves(c, r, e.cert, e.standing, e.keys, e.answer);
  }

  lemma BindStep(c: Chain, r: Replica, e: Event, r': Replica)
    requires Inv(c, r) && Steps(c, r, e, r') && e.BindAnswered?
    ensures BoundRetired(r') <==> BoundRetired(r) && !Unbinds(r, e)
  {
    TookBind(c, r, e.key, e.frontier, r');
    BindLeaves(c, r, e.key, e.frontier);
  }

  lemma ExclusionStep(c: Chain, r: Replica, e: Event, r': Replica)
    requires Inv(c, r) && Steps(c, r, e, r') && (e.BindRefused? || e.DeviceRevoked?)
    ensures BoundRetired(r') <==> BoundRetired(r) && !Unbinds(r, e)
  {
    if e.BindRefused? {
      TookBindRefusal(c, r, e.cert, r');
    } else {
      TookRevocation(c, r, e.cert, r');
    }
    ExclusionLeaves(c, r, e.cert);
  }

  lemma FatalStep(c: Chain, r: Replica, e: Event, r': Replica)
    requires Inv(c, r) && Steps(c, r, e, r') && e.WriterFatal?
    ensures BoundRetired(r') <==> BoundRetired(r) && !Unbinds(r, e)
  {
    TookFatal(c, r, e.cert, r');
    FatalLeaves(c, r, e.cert);
  }

  lemma RestoreStep(c: Chain, r: Replica, e: Event, r': Replica)
    requires Inv(c, r) && Steps(c, r, e, r') && e.Restore?
    ensures BoundRetired(r') <==> RetiresBound(r, e) || BoundRetired(r)
  {
    TookRestore(c, r, e.cert, e.archive, r');
    RestoreLeaves(c, r, e.cert, e.archive);
  }

  /** The connection is bound to a retired device after an event exactly when the event made it so, or found it so and did not end it. */
  lemma BoundRetiredStep(c: Chain, r: Replica, e: Event, r': Replica)
    requires Inv(c, r) && Steps(c, r, e, r')
    ensures BoundRetired(r') <==> RetiresBound(r, e) || (BoundRetired(r) && !Unbinds(r, e))
  {
    match e
    case Attach(_, _, _, _) => AttachStep(c, r, e, r');
    case BindAnswered(_, _) => BindStep(c, r, e, r');
    case BindRefused(_) => ExclusionStep(c, r, e, r');
    case DeviceRevoked(_) => ExclusionStep(c, r, e, r');
    case WriterFatal(_) => FatalStep(c, r, e, r');
    case Restore(_, _) => RestoreStep(c, r, e, r');
    case Disconnect => TookOff(c, r, e, r');
    case Die => TookOff(c, r, e, r');
    case _ => TookAside(c, r, e, r');
  }

  /** The event at `i` retired the bound device, and none since took the connection off it. */
  ghost predicate RetiredSince(trace: seq<Replica>, events: seq<Event>, i: nat, j: nat) {
    && i < j < |trace| && j <= |events| && RetiresBound(trace[i], events[i])
    && (forall m :: i < m < j ==> !Unbinds(trace[m], events[m]))
  }

  ghost predicate LeftRetired(trace: seq<Replica>, events: seq<Event>, j: nat) {
    exists i: nat :: RetiredSince(trace, events, i, j)
  }

  lemma LeftStep(trace: seq<Replica>, events: seq<Event>, j: nat)
    requires 0 < j < |trace| && j <= |events|
    ensures LeftRetired(trace, events, j) <==>
            RetiresBound(trace[j - 1], events[j - 1]) || (!Unbinds(trace[j - 1], events[j - 1]) && LeftRetired(trace, events, j - 1))
  {
    if RetiresBound(trace[j - 1], events[j - 1]) {
      assert RetiredSince(trace, events, j - 1, j);
    } else {
      if LeftRetired(trace, events, j) {
        var i: nat :| RetiredSince(trace, events, i, j);
        SinceStep(trace, events, i, j);
      }
      if LeftRetired(trace, events, j - 1) {
        var i: nat :| RetiredSince(trace, events, i, j - 1);
        SinceStep(trace, events, i, j);
      }
    }
  }

  lemma SinceStep(trace: seq<Replica>, events: seq<Event>, i: nat, j: nat)
    requires 0 < j < |trace| && j <= |events| && !RetiresBound(trace[j - 1], events[j - 1])
    ensures RetiredSince(trace, events, i, j) <==> !Unbinds(trace[j - 1], events[j - 1]) && RetiredSince(trace, events, i, j - 1)
  {}

  lemma BoundRetiredAt(c: Chain, trace: seq<Replica>, events: seq<Event>, j: nat)
    requires IsRun(c, trace, events) && 0 < j < |trace|
    ensures BoundRetired(trace[j]) <==>
            RetiresBound(trace[j - 1], events[j - 1]) || (BoundRetired(trace[j - 1]) && !Unbinds(trace[j - 1], events[j - 1]))
  {
    RunInv(c, trace, events, j - 1);
    BoundRetiredStep(c, trace[j - 1], events[j - 1], trace[j]);
  }

  /** A run leaves the connection bound to a retired device exactly from such a restore until the first event that takes it off. */
  lemma {:induction false} BoundRetiredExactly(c: Chain, trace: seq<Replica>, events: seq<Event>, j: nat)
    requires IsRun(c, trace, events) && j < |trace|
    ensures BoundRetired(trace[j]) <==> LeftRetired(trace, events, j)
    decreases j
  {
    if j > 0 {
      BoundRetiredExactly(c, trace, events, j - 1);
      BoundRetiredAt(c, trace, events, j);
      LeftStep(trace, events, j);
    }
  }

  /** While it lasts nothing is sent: the device owns no queue, and no new write is queued under it. */
  lemma NothingSentMeanwhile(c: Chain, r: Replica, e: Event, r': Replica)
    requires Inv(c, r) && Steps(c, r, e, r') && BoundRetired(r) && BoundRetired(r')
    ensures Sent(c, r, e) == {}
  {
    StepsGood(c, r, e, r');
    assert RetiredOwnNothing(r'.queues, r'.retired) by {
      InvHolds(c, r');
    }
    assert Stepped(0);
  }

  // ---- a run that leaves it so ----

  /** Write as a device, attach, bind, then restore an archive of that very device. */
  function Returned(k: Digest, changeset: Bytes): seq<Event> {
    [Push(Some(k), changeset), Attach(Some(k), true, true, Acked(None)), BindAnswered(k, 0),
     Restore(Some(k), [Archived(Device(k), 1, changeset, None)])]
  }

  lemma SingleRetires(r: Replica, k: Digest, e: Entry, a: Archived)
    requires r.queues == Single(Device(k), e) && r.bound == Some(Device(k)) && r.retired == {} && a.writer == Device(k)
    ensures RetiresBound(r, Restore(Some(k), [a]))
  {
    assert a in [a];
    WeightOfOne(r.queues, Device(k));
    assert |map[1 := e]| == 1;
  }

  lemma RestoreLeavesBound(c: Chain, k: Digest, changeset: Bytes, t: seq<Replica>)
    requires c.logical(changeset).Some? && Leads(c, t, Returned(k, changeset))
    ensures IsRun(c, t, Returned(k, changeset)) && BoundRetired(t[4])
  {
    var events := Returned(k, changeset);
    SaneTraceRuns(c, t, events);
    assert Takes(c, t[0], events[0], t[1]) && Takes(c, t[1], events[1], t[2]) && Takes(c, t[2], events[2], t[3]);
    TookPush(c, EMPTY, Some(k), changeset, t[1]);
    var e := PushedToDevice(c, k, changeset);
    TookAttach(c, t[1], Some(k), true, true, Acked(None), t[2]);
    AttachedAsDevice(c, t[1], k, e);
    TookBind(c, t[2], k, 0, t[3]);
    BoundToDevice(c, t[2], k, e);
    SingleRetires(t[3], k, e, Archived(Device(k), 1, changeset, None));
    RunInv(c, t, events, 3);
    BoundRetiredStep(c, t[3], events[3], t[4]);
  }
}
