/** No write is lost or made up: what each event does to the outstanding entries. */
module WriterConservation {
  import opened Common
  import opened WriterNames
  import opened WriterQueues
  import opened WriterDisk
  import opened WriterCarry
  import opened WriterState
  import opened WriterRuns

  // ---- nothing outstanding is lost ----

  /** The same entries, each where it stood. */
  ghost predicate SameEntries(q: Queues, q': Queues) {
    && (forall w, s :: Holds(q, w, s) <==> Holds(q', w, s))
    && (forall w, s :: Holds(q, w, s) ==> q'[w].pending[s] == q[w].pending[s])
  }

  lemma StandingConserves(q: Queues, q': Queues)
    requires SameEntries(q, q')
    ensures Conserves(q, q')
  {
    forall a | Outstanding(q, a) ensures Survives(a, q') {
      assert Stands(q', a) && Follows(a, a);
    }
    forall b | Outstanding(q', b) ensures Comes(b, q) {
      assert Stands(q, b) && Follows(b, b);
    }
  }

  lemma CarryToConserves(c: Chain, r: Replica, dead: seq<WriterRef>, target: WriterRef)
    requires QueuesOk(r.queues) && OneOrder(r.queues) && NoRepeats(dead) && target !in dead && CarryTo(c, r, dead, target).Some?
    ensures Conserves(r.queues, CarryTo(c, r, dead, target).value.queues)
  {
    CarryConserves(c, r.queues, dead, target);
  }

  lemma RekeyConserves(q: Queues, n: U64)
    requires Number(n) !in q
    ensures Conserves(q, q[Number(n) := At(q, UNISSUED)] - {UNISSUED})
  {
    var q' := q[Number(n) := At(q, UNISSUED)] - {UNISSUED};
    forall a | Outstanding(q, a) ensures Survives(a, q') {
      var b := if a.source == UNISSUED then a.(source := Number(n)) else a;
      assert Stands(q', b) && Follows(a, b);
    }
    forall b | Outstanding(q', b) ensures Comes(b, q) {
      var a := if b.source == Number(n) then b.(source := UNISSUED) else b;
      assert Stands(q, a) && Follows(a, b);
    }
  }

  lemma CarryToLiveConserves(c: Chain, r: Replica, dead: WriterRef)
    requires QueuesInv(r) && IsReal(dead)
    ensures Conserves(r.queues, CarryToLive(c, r, dead).queues)
  {
    TailTargetOwns(r.queues, r.retired, dead);
    if CarryTo(c, r, [dead], TailTarget(r.queues, dead)).Some? {
      CarryToConserves(c, r, [dead], TailTarget(r.queues, dead));
    } else {
      StandingConserves(r.queues, r.queues);
    }
  }

  lemma GrantedConserves(c: Chain, r: Replica, request: Request, grant: Option<Grant>, cert: Option<Digest>)
    requires QueuesInv(r) && Granted(c, r, request, grant, cert).Some?
    requires request.AskIssue? && grant.Some? ==> Number(grant.value.number) !in r.queues
    ensures Conserves(r.queues, Granted(c, r, request, grant, cert).value.0.queues)
  {
    match request
    case AskIssue => RekeyConserves(r.queues, grant.value.number);
    case AskNumber(n) => StandingConserves(r.queues, Granted(c, r, request, grant, cert).value.0.queues);
    case AskDevice =>
      if cert.Some? {
        CarryToConserves(c, r, [UNISSUED], Device(cert.value));
      } else {
        StandingConserves(r.queues, r.queues);
      }
  }

  lemma EnsureConserves(r: Replica, w: WriterRef)
    ensures Conserves(r.queues, Ensure(r, w).queues)
  {
    StandingConserves(r.queues, Ensure(r, w).queues);
  }

  lemma RaiseConserves(r: Replica, w: WriterRef, frontier: nat)
    ensures Conserves(r.queues, Raise(r, w, frontier).queues)
  {
    StandingConserves(r.queues, Raise(r, w, frontier).queues);
  }

  lemma PlanBindConserves(r: Replica, cert: Option<Digest>, standing: bool, keys: bool)
    ensures Conserves(r.queues, PlanBind(r, cert, standing, keys).queues)
  {
    if Bindable(r, cert, standing) {
      EnsureConserves(r, Device(cert.value));
    }
    StandingConserves(r.queues, r.queues);
  }

  lemma ConnectConserves(c: Chain, r: Replica, cert: Option<Digest>, standing: bool, keys: bool, grant: Option<Grant>)
    requires QueuesInv(r) && Connect(c, r, cert, standing, keys, grant).Some?
    requires Handshake(r, cert, standing).AskIssue? && grant.Some? ==> Number(grant.value.number) !in r.queues
    ensures Conserves(r.queues, Connect(c, r, cert, standing, keys, grant).value.queues)
  {
    GrantedConserves(c, r, Handshake(r, cert, standing), grant, cert);
    var (r1, bound) := Granted(c, r, Handshake(r, cert, standing), grant, cert).value;
    var r2 := r1.(bound := bound, connected := true);
    var r3 := PlanBind(r2, cert, standing, keys);
    PlanBindConserves(r2, cert, standing, keys);
    ConservesComposes(r.queues, r1.queues, r3.queues);
    if bound.Some? && grant.Some? {
      RaiseConserves(r3, bound.value, grant.value.frontier);
      ConservesComposes(r.queues, r3.queues, Raise(r3, bound.value, grant.value.frontier).queues);
    }
  }

  lemma ExcludeConserves(c: Chain, r: Replica, cert: Option<Digest>)
    requires QueuesInv(r)
    ensures Conserves(r.queues, Exclude(c, r, cert).queues)
  {
    ExcludedApart(r, cert);
    if CarryTo(c, r, Excluded(r, cert), NumberOrUnissued(r.queues)).Some? {
      CarryToConserves(c, r, Excluded(r, cert), NumberOrUnissued(r.queues));
    } else {
      StandingConserves(r.queues, r.queues);
    }
  }

  lemma BindToConserves(c: Chain, r: Replica, key: Digest, frontier: nat)
    requires QueuesInv(r) && QueuesInv(Raise(Ensure(r, Device(key)), Device(key), frontier))
    requires key !in r.retired ==> Storable(Raised(At(r.queues, Device(key)), frontier))
    ensures Conserves(r.queues, BindTo(c, r, key, frontier).queues)
  {
    if key in r.retired {
      StandingConserves(r.queues, r.queues);
    } else {
      var w := Device(key);
      var r1 := Raise(Ensure(r, w), w, frontier).(bound := Some(w));
      EnsureConserves(r, w);
      RaiseConserves(Ensure(r, w), w, frontier);
      ConservesComposes(r.queues, Ensure(r, w).queues, r1.queues);
      if CarryTo(c, r1, Numbers(r1.queues), w).Some? {
        CarryToConserves(c, r1, Numbers(r1.queues), w);
        ConservesComposes(r.queues, r1.queues, CarryTo(c, r1, Numbers(r1.queues), w).value.queues);
      }
    }
  }

  lemma ReadyConserves(c: Chain, r: Replica, cert: Option<Digest>, archive: seq<Archived>)
    requires QueuesInv(r) && ReadyToRestore(c, r, cert, archive).Some?
    ensures Conserves(r.queues, ReadyToRestore(c, r, cert, archive).value.0.queues)
  {
    var current := ChooseWriter(r, cert);
    if current in Retirable(archive) {
      TailTargetOwns(r.queues, r.retired, current);
      CarryToConserves(c, r.(disk := r.disk.(retires := r.disk.retires + Retirable(archive))), [current], TailTarget(r.queues, current));
    } else {
      StandingConserves(r.queues, r.queues);
    }
  }

  lemma RestartConserves(q: Queues, q': Queues)
    requires SameButHeads(q, q')
    ensures Conserves(q, q')
  {
    StandingConserves(q, q');
  }

  lemma SettleTakesOne(r: Replica, s: nat, held: bool, a: Carried)
    requires r.bound.Some?
    ensures Stands(SettleBound(r, s, held).queues, a) <==>
              Stands(r.queues, a) && !(a.source == r.bound.value && a.originalSeq == s)
  {
    var r1 := Remove(r, r.bound.value, s);
    assert Stands(r1.queues, a) <==> Stands(r.queues, a) && !(a.source == r.bound.value && a.originalSeq == s);
    assert Stands(FinishTail(r1, held).queues, a) <==> Stands(r1.queues, a);
  }

  lemma TurnedConserves(c: Chain, r: Replica, cert: Option<Digest>, standing: bool)
    requires QueuesInv(r)
    ensures Conserves(r.queues, Turned(c, r, Handshake(r, cert, standing)).queues)
  {
    var request := Handshake(r, cert, standing);
    if request.AskNumber? {
      CarryToLiveConserves(c, r, Number(request.number));
    } else {
      StandingConserves(r.queues, r.queues);
    }
  }

  lemma AckedConserves(c: Chain, r: Replica, cert: Option<Digest>, standing: bool, keys: bool, grant: Option<Grant>)
    requires QueuesInv(r) && NumbersIssued(r.queues, r.history.issued)
    requires Sane(r, Attach(cert, standing, keys, Acked(grant)))
    ensures Conserves(r.queues, Attached(c, r, cert, standing, keys, Acked(grant)).queues)
  {
    if Connect(c, r, cert, standing, keys, grant).Some? {
      ConnectConserves(c, r, cert, standing, keys, grant);
    } else {
      StandingConserves(r.queues, r.queues);
    }
  }

  lemma BindAnsweredConserves(c: Chain, r: Replica, key: Digest, frontier: nat)
    requires Inv(c, r) && Storable(frontier + 1)
    ensures Conserves(r.queues, BindTo(c, r, key, frontier).queues)
  {
    if key in r.retired {
      StandingConserves(r.queues, r.queues);
    } else {
      GoodEnsure(c, r, Device(key));
      GoodRaise(c, Ensure(r, Device(key)), Device(key), frontier);
      InvHolds(c, r);
      InvHolds(c, Raise(Ensure(r, Device(key)), Device(key), frontier));
      BindToConserves(c, r, key, frontier);
    }
  }

  lemma FatalCarries(c: Chain, r: Replica, cert: Option<Digest>, w: WriterRef)
    requires r.bound == Some(w) && w.Number?
    ensures Fatal(c, r, cert) == CarryToLive(c, r, w)
  {}

  lemma FatalConserves(c: Chain, r: Replica, cert: Option<Digest>)
    requires QueuesInv(r) && r.bound != Some(UNISSUED)
    ensures Conserves(r.queues, Fatal(c, r, cert).queues)
  {
    if r.bound.None? {
      StandingConserves(r.queues, r.queues);
    } else if r.bound.value.Number? {
      FatalCarries(c, r, cert, r.bound.value);
      CarryToLiveConserves(c, r, r.bound.value);
    } else {
      ExcludeConserves(c, r, cert);
    }
  }

  // ---- a tail with nowhere to go ----

  lemma PlanOfTail(q: Queues, w: WriterRef)
    ensures Plan(q, [w]) == [] <==> !HasTail(q, w)
    ensures Weight(q, [w]) == |At(q, w).pending|
  {
    PlanWeighs(q, [w]);
    WeightOfOne(q, w);
  }

  lemma UnissuedGoesNowhere(q: Queues)
    requires OneNumber(q)
    ensures GoesNowhere(q, UNISSUED) <==> HasTail(q, UNISSUED)
  {}

  lemma ConservedReloads(q: Queues, q1: Queues, q2: Queues)
    requires SameButHeads(q1, q2)
    ensures Conserves(q, q1) <==> Conserves(q, q2)
  {
    RestartConserves(q1, q2);
    RestartConserves(q2, q1);
    if Conserves(q, q1) {
      ConservesComposes(q, q1, q2);
    }
    if Conserves(q, q2) {
      ConservesComposes(q, q2, q1);
    }
  }

  lemma CarriedOk(c: Chain, r: Replica, dead: seq<WriterRef>, target: WriterRef)
    requires QueuesOk(r.queues) && CarryTo(c, r, dead, target).Some?
    ensures QueuesOk(CarryTo(c, r, dead, target).value.queues)
  {
    if target in dead {
      SelfCarryDrops(c, r, dead, target);
    } else {
      CarryShape(c, r.queues, dead, target);
    }
  }

  /** The tables a carry leaves, opened again, are the queues it leaves but for heads. */
  lemma CarriedReloads(c: Chain, r: Replica, dead: seq<WriterRef>, target: WriterRef)
    requires QueuesOk(r.queues) && Mirrors(r.queues, r.disk, r.history.astray) && CarryTo(c, r, dead, target).Some?
    ensures SameButHeads(CarryTo(c, r, dead, target).value.queues, Load(CarryTo(c, r, dead, target).value.disk))
  {
    var r' := CarryTo(c, r, dead, target).value;
    CarriedOk(c, r, dead, target);
    MirrorsCarry(c, r.queues, r.disk, r.history.astray, dead, target);
    LoadRebuilds(r'.queues, r'.disk, r.history.astray);
  }

  /** What a carry's transaction leaves to load is all there was, if and only if its target is not among the dead or nothing was carried. */
  lemma TablesConserveExactly(c: Chain, r: Replica, dead: seq<WriterRef>, target: WriterRef)
    requires QueuesInv(r) && DiskInv(r) && NoRepeats(dead) && CarryTo(c, r, dead, target).Some?
    ensures Conserves(r.queues, Load(CarryTo(c, r, dead, target).value.disk)) <==> target !in dead || Weight(r.queues, dead) == 0
  {
    var r' := CarryTo(c, r, dead, target).value;
    PlanWeighs(r.queues, dead);
    CarryConservesExactly(c, r.queues, dead, target);
    CarriedReloads(c, r, dead, target);
    ConservedReloads(r.queues, r'.queues, Load(r'.disk));
  }

  lemma CarriedNowhere(c: Chain, r: Replica, w: WriterRef)
    requires GoesNowhere(r.queues, w)
    ensures CarryToLive(c, r, w) == match CarryTo(c, r, [w], w) case None => r case Some(r') => Restart(r')
  {}

  /** The unissued tail is lost: the transaction deletes what it has just written, and nothing is left to load. */
  lemma NowhereLoses(c: Chain, r: Replica, cert: Option<Digest>)
    requires QueuesInv(r) && DiskInv(r) && r.bound == Some(UNISSUED) && HasTail(r.queues, UNISSUED)
    requires CarryTo(c, r, [UNISSUED], UNISSUED).Some?
    ensures !Conserves(r.queues, Fatal(c, r, cert).queues)
  {
    var r' := CarryTo(c, r, [UNISSUED], UNISSUED).value;
    UnissuedGoesNowhere(r.queues);
    FatalCarries(c, r, cert, UNISSUED);
    CarriedNowhere(c, r, UNISSUED);
    PlanOfTail(r.queues, UNISSUED);
    CarryConservesExactly(c, r.queues, [UNISSUED], UNISSUED);
    CarriedReloads(c, r, [UNISSUED], UNISSUED);
    ConservedReloads(r.queues, r'.queues, Restart(r').queues);
  }

  lemma NoTailConserves(c: Chain, r: Replica, cert: Option<Digest>)
    requires QueuesInv(r) && r.bound == Some(UNISSUED) && !HasTail(r.queues, UNISSUED)
    ensures Conserves(r.queues, Fatal(c, r, cert).queues)
  {
    var target := TailTarget(r.queues, UNISSUED);
    PlanOfTail(r.queues, UNISSUED);
    if CarryTo(c, r, [UNISSUED], target).Some? {
      CarryConservesExactly(c, r.queues, [UNISSUED], target);
    } else {
      StandingConserves(r.queues, r.queues);
    }
  }

  lemma TailLostUnlessRefused(c: Chain, r: Replica, cert: Option<Digest>)
    requires QueuesInv(r) && DiskInv(r) && r.bound == Some(UNISSUED) && HasTail(r.queues, UNISSUED)
    ensures Conserves(r.queues, Fatal(c, r, cert).queues) <==> Carry(c, r.queues, [UNISSUED], UNISSUED).None?
  {
    if Carry(c, r.queues, [UNISSUED], UNISSUED).Some? {
      NowhereLoses(c, r, cert);
    } else {
      UnissuedGoesNowhere(r.queues);
      FatalCarries(c, r, cert, UNISSUED);
      CarriedNowhere(c, r, UNISSUED);
      StandingConserves(r.queues, r.queues);
    }
  }

  /**
   A fatal error under a number loses no write if and only if that number was issued, or the
   unissued writer has no tail, or some entry of that tail cannot be hashed, or its sequences
   run out: what refuses the carry before its transaction.
   */
  lemma FatalConservesExactly(c: Chain, r: Replica, cert: Option<Digest>)
    requires QueuesInv(r) && DiskInv(r) && r.bound.Some? && r.bound.value.Number?
    ensures Conserves(r.queues, Fatal(c, r, cert).queues) <==>
            || r.bound != Some(UNISSUED)
            || !HasTail(r.queues, UNISSUED)
            || !TailsReadable(c, r.queues, [UNISSUED])
            || !HasRoom(r.queues[UNISSUED], |r.queues[UNISSUED].pending|)
  {
    if r.bound != Some(UNISSUED) {
      FatalConserves(c, r, cert);
    } else if !HasTail(r.queues, UNISSUED) {
      NoTailConserves(c, r, cert);
    } else {
      TailLostUnlessRefused(c, r, cert);
      CarrySucceeds(c, r.queues, [UNISSUED], UNISSUED);
      WeightOfOne(r.queues, UNISSUED);
    }
  }

  // ---- every event ----

  lemma AttachConserves(c: Chain, r: Replica, cert: Option<Digest>, standing: bool, keys: bool, answer: Answer)
    requires QueuesInv(r) && NumbersIssued(r.queues, r.history.issued) && Sane(r, Attach(cert, standing, keys, answer))
    ensures Conserves(r.queues, Attached(c, r, cert, standing, keys, answer).queues)
  {
    match answer
    case Lost => StandingConserves(r.queues, r.queues);
    case Refused => TurnedConserves(c, r, cert, standing);
    case Acked(grant) => AckedConserves(c, r, cert, standing, keys, grant);
  }

  lemma KeysConserve(r: Replica, cert: Option<Digest>, standing: bool)
    ensures Conserves(r.queues, KeysCame(r, cert, standing).queues)
  {
    PlanBindConserves(r, cert, standing, true);
    StandingConserves(r.queues, r.queues);
  }

  /** The events that may move a write and may not add or settle one. */
  predicate Moves(e: Event) { !e.Push? && !e.Restore? && !e.Applied? && !e.Refuse? }

  /** The one event that loses writes: a fatal error for the unissued writer, whose tail fits behind itself. */
  predicate Loses(r: Replica, e: Event) {
    e.WriterFatal? && r.bound == Some(UNISSUED) && HasTail(r.queues, UNISSUED)
    && HasRoom(r.queues[UNISSUED], |r.queues[UNISSUED].pending|)
  }

  lemma TailsStayReadable(c: Chain, r: Replica, dead: seq<WriterRef>)
    requires HistoryInv(c, r)
    ensures TailsReadable(c, r.queues, dead)
  {
    forall w, s | w in dead && Holds(r.queues, w, s) ensures c.logical(r.queues[w].pending[s].changeset).Some? {
      assert Covers(c, r.queues[w], r.history.logs[w]);
    }
  }

  lemma FatalMoves(c: Chain, r: Replica, cert: Option<Digest>)
    requires Inv(c, r)
    ensures Conserves(r.queues, Fatal(c, r, cert).queues) <==> !Loses(r, WriterFatal(cert))
  {
    InvHolds(c, r);
    if r.bound.Some? && r.bound.value.Number? {
      TailsStayReadable(c, r, [UNISSUED]);
      FatalConservesExactly(c, r, cert);
    } else {
      FatalConserves(c, r, cert);
    }
  }

  /**
   Whatever an attach, a bind, a refusal, a revocation, a fatal error or a restart does, no
   write is lost or made up, with exactly one exception.
   */
  lemma MovesConserve(c: Chain, r: Replica, e: Event, r': Replica)
    requires Inv(c, r) && Sane(r, e) && Moves(e) && Takes(c, r, e, r')
    ensures Conserves(r.queues, r'.queues) <==> !Loses(r, e)
  {
    assert QueuesInv(r) && NumbersIssued(r.queues, r.history.issued) by {
      InvHolds(c, r);
    }
    match e
    case Attach(cert, standing, keys, answer) =>
      TookAttach(c, r, cert, standing, keys, answer, r');
      AttachConserves(c, r, cert, standing, keys, answer);
    case KeysArrive(cert, standing) =>
      TookKeys(c, r, cert, standing, r');
      KeysConserve(r, cert, standing);
    case BindAnswered(key, frontier) =>
      TookBind(c, r, key, frontier, r');
      BindAnsweredConserves(c, r, key, frontier);
    case BindRefused(cert) =>
      TookBindRefusal(c, r, cert, r');
      ExcludeConserves(c, r, cert);
    case DeviceRevoked(cert) =>
      TookRevocation(c, r, cert, r');
      ExcludeConserves(c, r, cert);
    case WriterFatal(cert) =>
      TookFatal(c, r, cert, r');
      FatalMoves(c, r, cert);
    case Die =>
      TookDeath(c, r, r');
      RestartInv(c, r);
      RestartConserves(r.queues, r'.queues);
    case _ =>
      TookNothing(c, r, e, r');
      StandingConserves(r.queues, r'.queues);
  }

  /** The server's answer removes the one entry it names, under the bound writer, and no other. */
  lemma AnswerRemovesOne(c: Chain, r: Replica, e: Event, r': Replica)
    requires Takes(c, r, e, r') && (e.Applied? || e.Refuse?) && r.bound.Some?
    ensures forall a :: Stands(r'.queues, a) <==> Stands(r.queues, a) && !(a.source == r.bound.value && a.originalSeq == e.seqNo)
  {
    TookAnswer(c, r, e, r');
    forall a ensures Stands(r'.queues, a) <==> Stands(r.queues, a) && !(a.source == r.bound.value && a.originalSeq == e.seqNo) {
      SettleTakesOne(r, e.seqNo, e.held, a);
    }
  }
}
