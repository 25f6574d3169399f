/**
 The one way a write is lost, as a run. Revoking the device a connection is bound to leaves it
 bound to the unissued writer when no number stands. A fatal writer error there carries that
 writer's tail to itself: the transaction deletes what it has just written, the move in memory
 panics, and the next open finds nothing.
 */
module WriterFatal {
  import opened Common
  import opened WriterNames
  import opened WriterQueues
  import opened WriterDisk
  import opened WriterState
  import opened WriterRuns
  import opened WriterTheorems
  import opened WriterConservation
  import opened WriterOrder

  lemma {:induction false} ListingOfOne(w: WriterRef)
    ensures Listing({w}) == [w]
  {
    assert {w} - {w} == {};
    assert Listing({w}) == [w] + Listing({});
  }

  lemma PlanOfOne(q: Queues, w: WriterRef, x: Carried)
    requires OneOrder(q) && forall e :: Stands(q, e) <==> e == x
    requires x.source == w
    ensures Plan(q, [w]) == [x]
  {
    PlanIsTheTails(q, [w]);
    AscendingListsAgree(Plan(q, [w]), [x]);
  }

  /** The queues of a replica with one write, the first of its writer. */
  function Single(w: WriterRef, e: Entry): Queues { map[w := Queue(2, e.hash, map[1 := e])] }

  lemma SinglePlaced(c: Chain, w: WriterRef, e: Entry, target: WriterRef, t: Queue)
    requires Extend(c, At(Single(w, e), target), e.changeset, e.position, Origin(w, 1, e)) == Some(t)
    ensures Carry(c, Single(w, e), [w], target) == Some(Without(Single(w, e)[target := t], [w]))
  {
    var q, x := Single(w, e), Carried(w, 1, e);
    forall y ensures Stands(q, y) <==> y == x {}
    PlanOfOne(q, w, x);
    assert [x][1..] == [];
    assert Place(c, At(q, target), [x]) == Some(t);
  }

  lemma SingleExtends(c: Chain, w: WriterRef, e: Entry, target: WriterRef) returns (e': Entry)
    requires Storable(e.position) && StorableOrigin(e.provenance) && c.logical(e.changeset).Some? && w != target
    ensures var t := Queue(2, e'.hash, map[1 := e']);
            && Extend(c, At(Single(w, e), target), e.changeset, e.position, Origin(w, 1, e)) == Some(t)
            && Without(Single(w, e)[target := t], [w]) == Single(target, e')
    ensures e'.changeset == e.changeset && e'.position == e.position && e'.provenance == Origin(w, 1, e)
  {
    e' := Entry(e.changeset, c.link(GENESIS, 1, c.logical(e.changeset).value), e.position, Origin(w, 1, e));
  }

  /** Where a lone write lands: alone at the start of its new writer's queue. */
  lemma SingleMoves(c: Chain, w: WriterRef, e: Entry, target: WriterRef) returns (e': Entry)
    requires Storable(e.position) && StorableOrigin(e.provenance) && c.logical(e.changeset).Some? && w != target
    ensures Carry(c, Single(w, e), [w], target) == Some(Single(target, e'))
    ensures e'.changeset == e.changeset && e'.position == e.position && e'.provenance == Origin(w, 1, e)
  {
    e' := SingleExtends(c, w, e, target);
    SinglePlaced(c, w, e, target, Queue(2, e'.hash, map[1 := e']));
  }

  lemma SingleVanishes(c: Chain, e: Entry)
    requires Storable(e.position) && StorableOrigin(e.provenance) && c.logical(e.changeset).Some?
    ensures Carry(c, Single(UNISSUED, e), [UNISSUED], UNISSUED) == Some(map[])
  {
    var t := Extend(c, At(Single(UNISSUED, e), UNISSUED), e.changeset, e.position, Origin(UNISSUED, 1, e)).value;
    SinglePlaced(c, UNISSUED, e, UNISSUED, t);
    assert Without(Single(UNISSUED, e)[UNISSUED := t], [UNISSUED]) == map[];
  }

  // ---- the steps of the run ----

  lemma PushedToDevice(c: Chain, k: Digest, changeset: Bytes) returns (e: Entry)
    requires c.logical(changeset).Some?
    ensures var r := Pushed(c, EMPTY, Some(k), changeset);
            r.queues == Single(Device(k), e) && r.retired == {} && r.bound == None
    ensures e.changeset == changeset && e.position == 1 && e.provenance == None
  {
    e := Entry(changeset, c.link(GENESIS, 1, c.logical(changeset).value), 1, None);
  }

  /** Nothing to carry: the queues stand. */
  lemma CarriesNothing(c: Chain, r: Replica, dead: seq<WriterRef>, target: WriterRef)
    requires forall w :: w in dead ==> w !in r.queues
    ensures CarryTo(c, r, dead, target).Some?
    ensures var r' := CarryTo(c, r, dead, target).value;
            r'.queues == r.queues && r'.bound == r.bound && r'.connected == r.connected && r'.retired == r.retired + KeysOf(dead)
  {
    assert Plan(r.queues, dead) == [] by {
      NothingCollected(r.queues, dead);
    }
    assert Without(r.queues, dead) == r.queues;
  }

  lemma NothingCollected(q: Queues, dead: seq<WriterRef>)
    requires forall w :: w in dead ==> w !in q
    ensures Collect(q, dead) == []
  {
    var s := Collect(q, dead);
    assert forall i :: 0 <= i < |s| ==> s[i] in s;
  }

  lemma AttachedAsDevice(c: Chain, r: Replica, k: Digest, e: Entry)
    requires r.queues == Single(Device(k), e) && r.retired == {}
    ensures var r' := Attached(c, r, Some(k), true, true, Acked(None));
            r'.queues == r.queues && r'.retired == {} && r'.connected
  {
    assert Device(k) in r.queues;
    assert NumberIdentity(r.queues) == None;
    assert Handshake(r, Some(k), true) == AskDevice;
    CarriesNothing(c, r, [UNISSUED], Device(k));
    assert KeysOf([UNISSUED]) == {};
  }

  lemma BoundToDevice(c: Chain, r: Replica, k: Digest, e: Entry)
    requires r.queues == Single(Device(k), e) && r.retired == {}
    ensures var r' := BindTo(c, r, k, 0); r'.queues == r.queues && r'.bound == Some(Device(k)) && r'.retired == {}
  {
    var w := Device(k);
    var r1 := Raise(Ensure(r, w), w, 0).(bound := Some(w));
    assert r1.queues == r.queues;
    assert (set v | v in r1.queues && v.Number?) == {};
    assert Numbers(r1.queues) == [];
    CarriesNothing(c, r1, [], w);
  }

  lemma SingleExcluded(r: Replica, cert: Option<Digest>, k: Digest, e: Entry)
    requires r.queues == Single(Device(k), e)
    ensures Excluded(r, cert) == [Device(k)] && NumberOrUnissued(r.queues) == UNISSUED
  {
    assert (set w | w in r.queues && w.Device?) == {Device(k)};
    ListingOfOne(Device(k));
  }

  lemma RevokedStep(c: Chain, r: Replica, cert: Option<Digest>, dead: seq<WriterRef>, target: WriterRef, q: Queues)
    requires Excluded(r, cert) == dead && NumberOrUnissued(r.queues) == target && Carry(c, r.queues, dead, target) == Some(q)
    requires r.bound.Some? && r.bound.value.Device?
    ensures var r' := Exclude(c, r, cert); r'.queues == q && r'.bound == Some(target)
  {}

  lemma RevokedToUnissued(c: Chain, r: Replica, k: Digest, e: Entry) returns (e': Entry)
    requires r.queues == Single(Device(k), e) && r.bound == Some(Device(k))
    requires Storable(e.position) && e.provenance == None && c.logical(e.changeset).Some?
    ensures var r' := Exclude(c, r, Some(k));
            r'.queues == Single(UNISSUED, e') && r'.bound == Some(UNISSUED)
    ensures e'.changeset == e.changeset && e'.position == e.position && e'.provenance == Some(Provenance(Device(k), 1))
  {
    SingleExcluded(r, Some(k), k, e);
    e' := SingleMoves(c, Device(k), e, UNISSUED);
    RevokedStep(c, r, Some(k), [Device(k)], UNISSUED, Single(UNISSUED, e'));
  }

  lemma SingleFatal(c: Chain, r: Replica, cert: Option<Digest>, e: Entry)
    requires QueuesInv(r) && DiskInv(r) && r.queues == Single(UNISSUED, e) && r.bound == Some(UNISSUED)
    requires Storable(e.position) && StorableOrigin(e.provenance) && c.logical(e.changeset).Some?
    ensures Fatal(c, r, cert).queues == map[]
  {
    assert HasTail(r.queues, UNISSUED) by {
      assert 1 in r.queues[UNISSUED].pending;
    }
    FatalCarries(c, r, cert, UNISSUED);
    CarriedNowhere(c, r, UNISSUED);
    SingleVanishes(c, e);
    CarriedReloads(c, r, [UNISSUED], UNISSUED);
  }

  // ---- the run ----

  /** Write as a device, attach, bind, lose the device to a revocation, receive a fatal writer error. */
  function Doomed(k: Digest, changeset: Bytes): seq<Event> {
    [Push(Some(k), changeset), Attach(Some(k), true, true, Acked(None)), BindAnswered(k, 0), DeviceRevoked(Some(k)),
     WriterFatal(Some(k))]
  }

  lemma DoomedSteps(c: Chain, k: Digest, changeset: Bytes, t: seq<Replica>) returns (e: Entry)
    requires c.logical(changeset).Some? && Leads(c, t, Doomed(k, changeset))
    ensures t[4].queues == Single(UNISSUED, e) && t[4].bound == Some(UNISSUED)
    ensures e.changeset == changeset && Storable(e.position) && e.provenance == Some(Provenance(Device(k), 1))
    ensures t[5] == Fatal(c, t[4], Some(k))
  {
    FiveSteps(c, t, Doomed(k, changeset));
    TookPush(c, EMPTY, Some(k), changeset, t[1]);
    var first := PushedToDevice(c, k, changeset);
    TookAttach(c, t[1], Some(k), true, true, Acked(None), t[2]);
    AttachedAsDevice(c, t[1], k, first);
    TookBind(c, t[2], k, 0, t[3]);
    BoundToDevice(c, t[2], k, first);
    TookRevocation(c, t[3], Some(k), t[4]);
    e := RevokedToUnissued(c, t[3], k, first);
    TookFatal(c, t[4], Some(k), t[5]);
  }

  /**
   Those events are a run. The write is held under the unissued writer before the last of them
   and is in no table after it, for every device key and every changeset that parses.
   */
  lemma RevokeThenFatalLoses(c: Chain, k: Digest, changeset: Bytes, t: seq<Replica>)
    requires c.logical(changeset).Some? && Leads(c, t, Doomed(k, changeset))
    ensures IsRun(c, t, Doomed(k, changeset))
    ensures exists e :: t[4].queues == Single(UNISSUED, e) && e.changeset == changeset
    ensures t[5].queues == Load(t[5].disk) == map[] && t[5].disk.rows == map[]
  {
    var events := Doomed(k, changeset);
    SaneTraceRuns(c, t, events);
    var e := DoomedSteps(c, k, changeset, t);
    RunInv(c, t, events, 4);
    RunInv(c, t, events, 5);
    DoomedEnds(c, t[4], t[5], k, e);
  }

  lemma DoomedEnds(c: Chain, r: Replica, r': Replica, k: Digest, e: Entry)
    requires Inv(c, r) && Inv(c, r') && r' == Fatal(c, r, Some(k))
    requires r.queues == Single(UNISSUED, e) && r.bound == Some(UNISSUED)
    requires Storable(e.position) && StorableOrigin(e.provenance) && c.logical(e.changeset).Some?
    ensures r'.queues == Load(r'.disk) == map[] && r'.disk.rows == map[]
  {
    InvHolds(c, r);
    SingleFatal(c, r, Some(k), e);
    InvHolds(c, r');
    NothingStored(r');
  }

  lemma NothingStored(r: Replica)
    requires DiskInv(r) && r.queues == map[]
    ensures Load(r.disk) == map[] && r.disk.rows == map[]
  {
    LoadKeys(r.queues, r.disk, r.history.astray);
    assert forall k :: k in r.disk.rows ==> Holds(r.queues, k.0, k.1);
  }
}
