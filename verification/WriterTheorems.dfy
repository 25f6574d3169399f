/** What the writer protocol promises over every run. */
module WriterTheorems {
  import opened Common
  import opened WriterNames
  import opened WriterQueues
  import opened WriterDisk
  import opened WriterCarry
  import opened WriterState
  import opened WriterRuns
  import opened WriterConservation

  ghost predicate Steps(c: Chain, r: Replica, e: Event, r': Replica) { Sane(r, e) && Takes(c, r, e, r') }

  /** States and the events between them, from an empty replica. */
  ghost predicate IsRun(c: Chain, trace: seq<Replica>, events: seq<Event>) {
    && |trace| == |events| + 1
    && trace[0] == EMPTY
    && (forall i :: 0 <= i < |events| ==> Steps(c, trace[i], events[i], trace[i + 1]))
  }

  /** `trace` is the states `events` lead through from an empty replica. */
  ghost predicate Leads(c: Chain, trace: seq<Replica>, events: seq<Event>) {
    && |trace| == |events| + 1 && trace[0] == EMPTY
    && (forall i :: 0 <= i < |events| ==> Takes(c, trace[i], events[i], trace[i + 1]))
  }

  /** Any events lead somewhere, so what is proved of the states they lead through is proved of some. */
  lemma {:induction false} EventsLead(c: Chain, events: seq<Event>) returns (trace: seq<Replica>)
    ensures Leads(c, trace, events)
    decreases |events|
  {
    if events == [] {
      trace := [EMPTY];
    } else {
      var n := |events| - 1;
      var before := EventsLead(c, events[..n]);
      var last := NextState(c, before[n], events[n]);
      LeadsOn(c, before, events, last);
      trace := before + [last];
    }
  }

  lemma LeadsOn(c: Chain, before: seq<Replica>, events: seq<Event>, last: Replica)
    requires events != [] && Leads(c, before, events[..|events| - 1])
    requires Takes(c, before[|events| - 1], events[|events| - 1], last)
    ensures Leads(c, before + [last], events)
  {
    var trace := before + [last];
    forall i | 0 <= i < |events| ensures Takes(c, trace[i], events[i], trace[i + 1]) {
      if i < |events| - 1 {
        LedBefore(c, before, events, i);
      }
    }
  }

  lemma LedBefore(c: Chain, before: seq<Replica>, events: seq<Event>, i: nat)
    requires i < |events| - 1 && Leads(c, before, events[..|events| - 1])
    ensures Takes(c, before[i], events[i], before[i + 1])
  {
    assert events[..|events| - 1][i] == events[i];
  }

  lemma NextState(c: Chain, r: Replica, e: Event) returns (r': Replica)
    ensures Takes(c, r, e, r')
  {
    match e
    case Push(cert, changeset) => r' := Pushed(c, r, cert, changeset);
    case Attach(cert, standing, keys, answer) => r' := Attached(c, r, cert, standing, keys, answer);
    case Applied(s, held) => r' := SettleBound(r, s, held);
    case Refuse(s, held) => r' := SettleBound(r, s, held);
    case KeysArrive(cert, standing) => r' := KeysCame(r, cert, standing);
    case BindAnswered(key, frontier) => r' := BindTo(c, r, key, frontier);
    case BindRefused(cert) => r' := Exclude(c, r, cert);
    case WriterFatal(cert) => r' := Fatal(c, r, cert);
    case DeviceRevoked(cert) => r' := Exclude(c, r, cert);
    case Resend => r' := r;
    case Restore(cert, archive) => r' := Restored(c, r, cert, archive);
    case RetireAnswered(w) => r' := r.(disk := r.disk.(retires := r.disk.retires - {w}));
    case Disconnect => r' := r.(bound := None, connected := false);
    case Die => r' := Restart(r);
  }

  lemma FiveSteps(c: Chain, t: seq<Replica>, events: seq<Event>)
    requires |events| == 5 && Leads(c, t, events)
    ensures |t| == 6 && Takes(c, EMPTY, events[0], t[1]) && Takes(c, t[1], events[1], t[2])
    ensures Takes(c, t[2], events[2], t[3]) && Takes(c, t[3], events[3], t[4]) && Takes(c, t[4], events[4], t[5])
  {}

  lemma SaneTraceRuns(c: Chain, trace: seq<Replica>, events: seq<Event>)
    requires Leads(c, trace, events) && forall i :: 0 <= i < |events| ==> Sane(trace[i], events[i])
    ensures IsRun(c, trace, events)
  {}

  lemma StepsGood(c: Chain, r: Replica, e: Event, r': Replica)
    requires Inv(c, r) && Steps(c, r, e, r')
    ensures Good(c, r, r')
  {
    StepGood(c, r, e, r');
  }

  lemma {:induction false} RunInv(c: Chain, trace: seq<Replica>, events: seq<Event>, i: nat)
    requires IsRun(c, trace, events) && i < |trace|
    ensures Inv(c, trace[i])
    decreases i
  {
    if i == 0 {
      EmptyInv(c);
    } else {
      RunInv(c, trace, events, i - 1);
      StepsGood(c, trace[i - 1], events[i - 1], trace[i]);
    }
  }

  lemma {:induction false} RunOnward(c: Chain, trace: seq<Replica>, events: seq<Event>, i: nat, j: nat)
    requires IsRun(c, trace, events) && i <= j < |trace|
    ensures Onward(trace[i], trace[j])
    decreases j
  {
    if i == j {
      OnwardStays(trace[i]);
    } else {
      RunOnward(c, trace, events, i, j - 1);
      RunInv(c, trace, events, j - 1);
      StepsGood(c, trace[j - 1], events[j - 1], trace[j]);
      OnwardComposes(trace[i], trace[j - 1], trace[j]);
    }
  }

  // ---- writer selection ----

  lemma {:induction false} AppendAllBinds(c: Chain, r: Replica, w: WriterRef, archive: seq<Archived>)
    ensures AppendAll(c, r, w, archive).bound == r.bound && AppendAll(c, r, w, archive).retired == r.retired
    decreases |archive|
  {
    if archive != [] && Append(c, r, w, archive[0].changeset, ArchivedOrigin(archive[0])).Some? {
      AppendAllBinds(c, Append(c, r, w, archive[0].changeset, ArchivedOrigin(archive[0])).value, w, archive[1..]);
    }
  }

  lemma RestoredBinds(c: Chain, r: Replica, cert: Option<Digest>, archive: seq<Archived>)
    ensures Restored(c, r, cert, archive).bound == r.bound
  {
    if ReadyToRestore(c, r, cert, archive).Some? {
      var (r1, w) := ReadyToRestore(c, r, cert, archive).value;
      AppendAllBinds(c, r1, w, archive);
    }
  }

  lemma ConnectBinds(c: Chain, r: Replica, cert: Option<Digest>, standing: bool, keys: bool, grant: Option<Grant>)
    requires Connect(c, r, cert, standing, keys, grant).Some?
    ensures var bound := Connect(c, r, cert, standing, keys, grant).value.bound; bound.Some? ==> bound.value.Number?
  {
    var granted := Granted(c, r, Handshake(r, cert, standing), grant, cert).value;
    assert granted.1.Some? ==> granted.1.value.Number?;
  }

  lemma AttachBinds(c: Chain, r: Replica, e: Event, k: Digest)
    requires e.Attach? && Attached(c, r, e.cert, e.standing, e.keys, e.answer).bound == Some(Device(k))
    ensures r.bound == Some(Device(k))
  {
    if e.answer.Acked? && Connect(c, r, e.cert, e.standing, e.keys, e.answer.grant).Some? {
      ConnectBinds(c, r, e.cert, e.standing, e.keys, e.answer.grant);
    }
  }

  lemma BindToBinds(c: Chain, r: Replica, key: Digest, frontier: nat)
    ensures
      || BindTo(c, r, key, frontier).bound == r.bound
      || (key !in r.retired && BindTo(c, r, key, frontier).bound == Some(Device(key)))
  {}

  /** What a quiet event leaves of the binding. */
  lemma TookAside(c: Chain, r: Replica, e: Event, r': Replica)
    requires Takes(c, r, e, r')
    requires e.Push? || e.Applied? || e.Refuse? || e.KeysArrive? || e.Resend? || e.RetireAnswered?
    ensures r'.bound == r.bound && r'.retired == r.retired
  {
    assert Stepped(0);
  }

  lemma TookOff(c: Chain, r: Replica, e: Event, r': Replica)
    requires Takes(c, r, e, r') && (e.Disconnect? || e.Die?)
    ensures r'.bound == None
  {
    assert Stepped(0);
  }

  lemma ExcludeBinds(c: Chain, r: Replica, cert: Option<Digest>)
    ensures var bound := Exclude(c, r, cert).bound; bound == r.bound || (bound.Some? && bound.value.Number?)
  {}

  lemma LiveBinds(c: Chain, r: Replica, dead: WriterRef)
    ensures CarryToLive(c, r, dead).bound == r.bound || CarryToLive(c, r, dead).bound == None
  {}

  lemma FatalBinds(c: Chain, r: Replica, cert: Option<Digest>)
    ensures var bound := Fatal(c, r, cert).bound; bound == r.bound || bound == None || bound.value.Number?
  {
    if r.bound.Some? && r.bound.value.Device? {
      ExcludeBinds(c, r, cert);
    } else if r.bound.Some? {
      LiveBinds(c, r, r.bound.value);
    }
  }

  /** A bind never settles on a key that is retired. */
  lemma StepBinds(c: Chain, r: Replica, e: Event, r': Replica, k: Digest)
    requires Takes(c, r, e, r') && k in r.retired && r'.bound == Some(Device(k))
    ensures r.bound == Some(Device(k))
  {
    match e
    case Attach(cert, standing, keys, answer) =>
      TookAttach(c, r, cert, standing, keys, answer, r');
      AttachBinds(c, r, e, k);
    case BindAnswered(key, frontier) =>
      TookBind(c, r, key, frontier, r');
      BindToBinds(c, r, key, frontier);
    case BindRefused(cert) =>
      TookBindRefusal(c, r, cert, r');
      ExcludeBinds(c, r, cert);
    case DeviceRevoked(cert) =>
      TookRevocation(c, r, cert, r');
      ExcludeBinds(c, r, cert);
    case WriterFatal(cert) =>
      TookFatal(c, r, cert, r');
      FatalBinds(c, r, cert);
    case Restore(cert, archive) =>
      TookRestore(c, r, cert, archive, r');
      RestoredBinds(c, r, cert, archive);
    case Disconnect => TookOff(c, r, e, r');
    case Die => TookOff(c, r, e, r');
    case _ => TookAside(c, r, e, r');
  }

  /**
   In every state of every run the replica holds at most one number queue, the unissued
   one counted. A key retired at any moment never again owns a queue, takes an entry or
   becomes the bound writer.
   */
  lemma WriterSelection(c: Chain, trace: seq<Replica>, events: seq<Event>, i: nat, j: nat, k: Digest)
    requires IsRun(c, trace, events) && i <= j < |trace| && k in trace[i].retired
    ensures OneNumber(trace[j].queues)
    ensures Device(k) !in trace[j].queues && k in trace[j].retired
    ensures j < |events| && trace[j + 1].bound == Some(Device(k)) ==> trace[j].bound == Some(Device(k))
  {
    RunInv(c, trace, events, j);
    InvHolds(c, trace[j]);
    RunOnward(c, trace, events, i, j);
    OnwardHolds(trace[i], trace[j]);
    if j < |events| && trace[j + 1].bound == Some(Device(k)) {
      assert Steps(c, trace[j], events[j], trace[j + 1]);
      StepBinds(c, trace[j], events[j], trace[j + 1], k);
    }
  }

  // ---- exactly-once identity ----

  /**
   A (writer, sequence) pair names one changeset for ever. While a real writer's queue
   lives its next sequence exceeds every pending one and never decreases, and neither
   does the settled prefix. Once the queue is gone the writer never owns another.
   */
  lemma ExactlyOnceIdentity(c: Chain, trace: seq<Replica>, events: seq<Event>, i: nat, j: nat, w: WriterRef)
    requires IsRun(c, trace, events) && i <= j < |trace| && IsReal(w)
    ensures forall s: nat, t: nat :: s == t && Holds(trace[i].queues, w, s) && Holds(trace[j].queues, w, t) ==>
              trace[i].queues[w].pending[s].changeset == trace[j].queues[w].pending[t].changeset
    ensures forall s: nat :: Holds(trace[j].queues, w, s) ==> s < trace[j].queues[w].nextSeq
    ensures w in trace[i].queues && w in trace[j].queues ==> Advances(trace[i].queues, trace[j].queues, w)
    ensures w in trace[i].queues && w !in trace[j].queues ==> forall m :: j <= m < |trace| ==> w !in trace[m].queues
  {
    RunInv(c, trace, events, i);
    InvHolds(c, trace[i]);
    RunInv(c, trace, events, j);
    InvHolds(c, trace[j]);
    RunOnward(c, trace, events, i, j);
    OnwardHolds(trace[i], trace[j]);
    forall m | j <= m < |trace| && w in trace[i].queues && w !in trace[j].queues ensures w !in trace[m].queues {
      RunOnward(c, trace, events, j, m);
      OnwardHolds(trace[j], trace[m]);
    }
  }

  lemma SentIsPending(c: Chain, r: Replica, e: Event, r': Replica, w: WriterRef, s: nat)
    requires Steps(c, r, e, r') && (w, s) in Sent(c, r, e)
    ensures Holds(r'.queues, w, s)
  {
    assert Stepped(0);
  }

  lemma PendingIsUnsettled(q: Queues, w: WriterRef, s: nat)
    requires QueuesOk(q) && Holds(q, w, s)
    ensures SettledThrough(q, w) < s
  {}

  /** Whatever is pending later lies above every earlier settled prefix of its writer. */
  lemma PendingAboveEarlierSettled(c: Chain, trace: seq<Replica>, events: seq<Event>, i: nat, j: nat, w: WriterRef, s: nat)
    requires IsRun(c, trace, events) && i <= j < |trace| && IsReal(w)
    requires w in trace[i].queues && Holds(trace[j].queues, w, s)
    ensures SettledThrough(trace[i].queues, w) < s
  {
    assert QueuesOk(trace[j].queues) by {
      RunInv(c, trace, events, j);
      InvHolds(c, trace[j]);
    }
    assert Advances(trace[i].queues, trace[j].queues, w) by {
      RunOnward(c, trace, events, i, j);
      OnwardHolds(trace[i], trace[j]);
    }
    PendingIsUnsettled(trace[j].queues, w, s);
  }

  lemma AskedNumberIsHeld(r: Replica, cert: Option<Digest>, standing: bool, n: U64)
    requires Handshake(r, cert, standing) == AskNumber(n)
    ensures Number(n) in r.queues && IsReal(Number(n))
  {}

  /** No mutation at or below a settled prefix the client reported is ever sent again. */
  lemma NeverResent(c: Chain, trace: seq<Replica>, events: seq<Event>, i: nat, j: nat, n: U64, s: nat)
    requires IsRun(c, trace, events) && i <= j < |events|
    requires events[i].Attach? && Handshake(trace[i], events[i].cert, events[i].standing) == AskNumber(n)
    requires (Number(n), s) in Sent(c, trace[j], events[j])
    ensures SettledThrough(trace[i].queues, Number(n)) < s
  {
    AskedNumberIsHeld(trace[i], events[i].cert, events[i].standing, n);
    SentIsPending(c, trace[j], events[j], trace[j + 1], Number(n), s);
    PendingAboveEarlierSettled(c, trace, events, i, j + 1, Number(n), s);
  }

  // ---- restart ----

  /** The last entry ever appended to the queue is still pending, or nothing is. */
  ghost predicate LastAppendedStands(t: Queue, log: seq<Logged>) {
    t.pending != map[] ==> log != [] && log[|log| - 1].seqNo in t.pending
  }

  lemma LastAppendedReloads(c: Chain, t: Queue, log: seq<Logged>)
    requires Covers(c, t, log) && LastAppendedStands(t, log)
    ensures HeadReloads(t)
  {
    if t.pending != map[] {
      LastAppendedIsLast(c, t, log);
    }
  }

  /**
   Restart refinement over every run: reloading the tables rebuilds every queue's next
   sequence and entries, and the whole queue while its last appended entry is still pending.
   An emptied queue comes back whole unless an earlier restart had moved its head. The next
   position exceeds every outstanding one.
   */
  lemma RestartRefines(c: Chain, trace: seq<Replica>, events: seq<Event>, i: nat)
    requires IsRun(c, trace, events) && i < |trace|
    ensures SameButHeads(trace[i].queues, Load(trace[i].disk))
    ensures forall w :: w in trace[i].queues && LastAppendedStands(trace[i].queues[w], LogAt(trace[i].history.logs, w))
                        && (w !in trace[i].history.astray || trace[i].queues[w].pending != map[]) ==>
              Load(trace[i].disk)[w] == trace[i].queues[w]
    ensures PositionsBelow(Load(trace[i].disk), NextPosition(Load(trace[i].disk)))
    ensures trace[i].disk.retiredKeys == trace[i].retired
  {
    var r := trace[i];
    RunInv(c, trace, events, i);
    InvHolds(c, r);
    LoadRebuilds(r.queues, r.disk, r.history.astray);
    NextPositionAbove(Load(r.disk));
    forall w | w in r.queues && LastAppendedStands(r.queues[w], LogAt(r.history.logs, w))
      ensures HeadReloads(r.queues[w])
    {
      LastAppendedReloads(c, r.queues[w], r.history.logs[w]);
    }
  }

  lemma {:induction false} AppendAllAstray(c: Chain, r: Replica, w: WriterRef, archive: seq<Archived>)
    ensures AppendAll(c, r, w, archive).history.astray == r.history.astray
    decreases |archive|
  {
    if archive != [] && Append(c, r, w, archive[0].changeset, ArchivedOrigin(archive[0])).Some? {
      AppendAllAstray(c, Append(c, r, w, archive[0].changeset, ArchivedOrigin(archive[0])).value, w, archive[1..]);
    }
  }

  lemma CarryAstray(c: Chain, r: Replica, dead: seq<WriterRef>, target: WriterRef)
    requires CarryTo(c, r, dead, target).Some? && r.history.astray == {}
    ensures CarryTo(c, r, dead, target).value.history.astray == {}
  {}

  lemma ConnectAstray(c: Chain, r: Replica, cert: Option<Digest>, standing: bool, keys: bool, grant: Option<Grant>)
    requires Connect(c, r, cert, standing, keys, grant).Some? && r.history.astray == {}
    ensures Connect(c, r, cert, standing, keys, grant).value.history.astray == {}
  {
    match Handshake(r, cert, standing)
    case AskIssue =>
    case AskNumber(_) =>
    case AskDevice =>
      if cert.Some? {
        CarryAstray(c, r, [UNISSUED], Device(cert.value));
      }
  }

  lemma ExcludeAstray(c: Chain, r: Replica, cert: Option<Digest>)
    requires r.history.astray == {}
    ensures Exclude(c, r, cert).history.astray == {}
  {
    if CarryTo(c, r, Excluded(r, cert), NumberOrUnissued(r.queues)).Some? {
      CarryAstray(c, r, Excluded(r, cert), NumberOrUnissued(r.queues));
    }
  }

  lemma CarryToLiveAstray(c: Chain, r: Replica, dead: WriterRef)
    requires r.history.astray == {} && !GoesNowhere(r.queues, dead)
    ensures CarryToLive(c, r, dead).history.astray == {}
  {}

  lemma BindAstray(c: Chain, r: Replica, key: Digest, frontier: nat)
    requires r.history.astray == {}
    ensures BindTo(c, r, key, frontier).history.astray == {}
  {
    var r1 := Raise(Ensure(r, Device(key)), Device(key), frontier).(bound := Some(Device(key)));
    if CarryTo(c, r1, Numbers(r1.queues), Device(key)).Some? {
      CarryAstray(c, r1, Numbers(r1.queues), Device(key));
    }
  }

  lemma RestoredAstray(c: Chain, r: Replica, cert: Option<Digest>, archive: seq<Archived>)
    requires r.history.astray == {}
    ensures Restored(c, r, cert, archive).history.astray == {}
  {
    if ReadyToRestore(c, r, cert, archive).Some? {
      var (r1, w) := ReadyToRestore(c, r, cert, archive).value;
      AppendAllAstray(c, r1, w, archive);
      var current := ChooseWriter(r, cert);
      if current in Retirable(archive) {
        CarryAstray(c, r.(disk := r.disk.(retires := r.disk.retires + Retirable(archive))), [current], TailTarget(r.queues, current));
      }
    }
  }

  lemma AttachAstray(c: Chain, r: Replica, e: Event)
    requires e.Attach? && r.history.astray == {}
    ensures Attached(c, r, e.cert, e.standing, e.keys, e.answer).history.astray == {}
  {
    if e.answer.Acked? && Connect(c, r, e.cert, e.standing, e.keys, e.answer.grant).Some? {
      ConnectAstray(c, r, e.cert, e.standing, e.keys, e.answer.grant);
    } else if e.answer.Refused? && Handshake(r, e.cert, e.standing).AskNumber? {
      CarryToLiveAstray(c, r, Number(Handshake(r, e.cert, e.standing).number));
    }
  }

  lemma FatalAstray(c: Chain, r: Replica, cert: Option<Digest>)
    requires r.history.astray == {} && !Restarts(r, WriterFatal(cert))
    ensures Fatal(c, r, cert).history.astray == {}
  {
    if r.bound.Some? && r.bound.value.Number? {
      CarryToLiveAstray(c, r, r.bound.value);
    } else {
      ExcludeAstray(c, r, cert);
    }
  }

  /** The events that end in a fresh open: a death, and the panic of a carry into its own source. */
  predicate Restarts(r: Replica, e: Event) {
    e.Die? || (e.WriterFatal? && r.bound.Some? && GoesNowhere(r.queues, r.bound.value))
  }

  lemma TookOnChain(c: Chain, r: Replica, e: Event, r': Replica)
    requires Takes(c, r, e, r')
    requires e.Push? || e.Applied? || e.Refuse? || e.KeysArrive? || e.Resend? || e.RetireAnswered? || e.Disconnect?
    requires r.history.astray == {}
    ensures r'.history.astray == {}
  {
    assert Stepped(0);
  }

  /** Only a restart takes a head off its chain. */
  lemma StepAstray(c: Chain, r: Replica, e: Event, r': Replica)
    requires Takes(c, r, e, r') && !Restarts(r, e) && r.history.astray == {}
    ensures r'.history.astray == {}
  {
    match e
    case Attach(cert, standing, keys, answer) =>
      TookAttach(c, r, cert, standing, keys, answer, r');
      AttachAstray(c, r, e);
    case BindAnswered(key, frontier) =>
      TookBind(c, r, key, frontier, r');
      BindAstray(c, r, key, frontier);
    case BindRefused(cert) =>
      TookBindRefusal(c, r, cert, r');
      ExcludeAstray(c, r, cert);
    case DeviceRevoked(cert) =>
      TookRevocation(c, r, cert, r');
      ExcludeAstray(c, r, cert);
    case WriterFatal(cert) =>
      TookFatal(c, r, cert, r');
      FatalAstray(c, r, cert);
    case Restore(cert, archive) =>
      TookRestore(c, r, cert, archive, r');
      RestoredAstray(c, r, cert, archive);
    case _ => TookOnChain(c, r, e, r');
  }

  lemma {:induction false} RunAstray(c: Chain, trace: seq<Replica>, events: seq<Event>, i: nat)
    requires IsRun(c, trace, events) && i < |trace| && forall k :: 0 <= k < i ==> !Restarts(trace[k], events[k])
    ensures trace[i].history.astray == {}
  {
    if i > 0 {
      RunAstray(c, trace, events, i - 1);
      StepAstray(c, trace[i - 1], events[i - 1], trace[i]);
    }
  }

  /**
   The first restart loses nothing: after any run without one, reloading the tables rebuilds
   the in-memory queues exactly, whenever each non-empty queue's last appended entry is
   still pending.
   */
  lemma ReloadIsExact(c: Chain, trace: seq<Replica>, events: seq<Event>, i: nat)
    requires IsRun(c, trace, events) && i < |trace| && forall k :: 0 <= k < i ==> !Restarts(trace[k], events[k])
    requires forall w :: w in trace[i].queues ==> LastAppendedStands(trace[i].queues[w], LogAt(trace[i].history.logs, w))
    ensures Load(trace[i].disk) == trace[i].queues
  {
    RunAstray(c, trace, events, i);
    RestartRefines(c, trace, events, i);
  }

  // ---- no tail is stranded ----

  /** In every state of every run a carry is refused only when the target's sequences run out. */
  lemma NoTailStranded(c: Chain, trace: seq<Replica>, events: seq<Event>, i: nat, dead: seq<WriterRef>, target: WriterRef)
    requires IsRun(c, trace, events) && i < |trace| && NoRepeats(dead)
    ensures Carry(c, trace[i].queues, dead, target).Some? <==> HasRoom(At(trace[i].queues, target), Weight(trace[i].queues, dead))
  {
    RunInv(c, trace, events, i);
    InvHolds(c, trace[i]);
    TailsStayReadable(c, trace[i], dead);
    CarrySucceeds(c, trace[i].queues, dead, target);
  }
}
