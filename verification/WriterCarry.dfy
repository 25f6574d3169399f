/** What a carry conserves, and the hash chain it leaves behind its target. */
module WriterCarry {
  import opened Common
  import opened WriterNames
  import opened WriterQueues

  /** `b` is `a` after a move: the same write at the same place, its first real origin kept. */
  predicate Follows(a: Carried, b: Carried) {
    && a.entry.position == b.entry.position
    && a.entry.changeset == b.entry.changeset
    && (Origin(a.source, a.originalSeq, a.entry).Some? ==>
          Origin(b.source, b.originalSeq, b.entry) == Origin(a.source, a.originalSeq, a.entry))
  }

  /** An entry of the queues. Said apart from `Stands` so that moves chain one step at a time. */
  ghost predicate Outstanding(q: Queues, a: Carried) { Stands(q, a) }

  ghost predicate Survives(a: Carried, q: Queues) { exists b :: Stands(q, b) && Follows(a, b) }

  ghost predicate Comes(b: Carried, q: Queues) { exists a :: Stands(q, a) && Follows(a, b) }

  /** Every entry goes on, its write, its place and its first real origin kept. */
  ghost predicate Keeps(q: Queues, q': Queues) {
    forall a {:trigger Outstanding(q, a)} :: Outstanding(q, a) ==> Survives(a, q')
  }

  lemma KeepsComposes(q: Queues, q1: Queues, q2: Queues)
    requires Keeps(q, q1) && Keeps(q1, q2)
    ensures Keeps(q, q2)
  {
    forall a | Outstanding(q, a) ensures Survives(a, q2) {
      var b :| Stands(q1, b) && Follows(a, b);
      assert Outstanding(q1, b);
      var e :| Stands(q2, e) && Follows(b, e);
      assert Follows(a, e);
    }
  }

  lemma ConservesComposes(q: Queues, q1: Queues, q2: Queues)
    requires Conserves(q, q1) && Conserves(q1, q2)
    ensures Conserves(q, q2)
  {
    KeepsComposes(q, q1, q2);
    forall e | Outstanding(q2, e) ensures Comes(e, q) {
      var b :| Stands(q1, b) && Follows(b, e);
      assert Outstanding(q1, b);
      var a :| Stands(q, a) && Follows(a, b);
      FollowsChains(a, b, e);
    }
  }

  lemma FollowsChains(a: Carried, b: Carried, e: Carried)
    requires Follows(a, b) && Follows(b, e)
    ensures Follows(a, e)
  {}

  /** No entry lost, none added. With distinct positions, none duplicated either. */
  ghost predicate Conserves(q: Queues, q': Queues) {
    && Keeps(q, q')
    && (forall b {:trigger Outstanding(q', b)} :: Outstanding(q', b) ==> Comes(b, q))
  }

  /** Where the `i`-th planned entry lands. */
  function Landed(q: Queues, q': Queues, target: WriterRef, i: nat): Carried
    requires At(q, target).nextSeq + i in At(q', target).pending
  {
    var s := At(q, target).nextSeq + i;
    Carried(target, s, At(q', target).pending[s])
  }

  /**
   The shape of a carry: the planned entries land at consecutive fresh sequences in
   append order, nothing of the target is overwritten and no other writer is touched.
   */
  ghost predicate Carries(q: Queues, q': Queues, dead: seq<WriterRef>, target: WriterRef, plan: seq<Carried>) {
    && (forall w :: w != target ==> (w in q' <==> w in q && w !in dead))
    && (forall w :: w != target && w in q' ==> q'[w] == q[w])
    && (target in q' <==> target in q || plan != [])
    && Placed(At(q, target), At(q', target), plan)
  }

  lemma CarryFrame(q: Queues, q': Queues, dead: seq<WriterRef>, target: WriterRef, plan: seq<Carried>, r: Queue)
    requires QueuesOk(q) && target !in dead && Placed(At(q, target), r, plan)
    requires plan == [] ==> r == At(q, target)
    requires q' == Without(if plan == [] then q else q[target := r], dead)
    ensures QueuesOk(q') && Carries(q, q', dead, target, plan)
  {}

  lemma CarryShape(c: Chain, q: Queues, dead: seq<WriterRef>, target: WriterRef)
    requires QueuesOk(q) && target !in dead && Carry(c, q, dead, target).Some?
    ensures QueuesOk(Carry(c, q, dead, target).value)
    ensures Carries(q, Carry(c, q, dead, target).value, dead, target, Plan(q, dead))
  {
    var plan := Plan(q, dead);
    PlaceShape(c, At(q, target), plan);
    CarryFrame(q, Carry(c, q, dead, target).value, dead, target, plan, Place(c, At(q, target), plan).value);
  }

  /** `b` landed from the `i`-th entry of the plan. */
  ghost predicate LandedAs(q: Queues, q': Queues, plan: seq<Carried>, target: WriterRef, b: Carried, i: nat) {
    && i < |plan|
    && At(q, target).nextSeq + i in At(q', target).pending
    && b == Landed(q, q', target, i)
    && Follows(plan[i], b)
  }

  lemma PlannedLands(q: Queues, q': Queues, dead: seq<WriterRef>, target: WriterRef, plan: seq<Carried>, i: nat)
    requires Carries(q, q', dead, target, plan) && i < |plan|
    ensures At(q, target).nextSeq + i in At(q', target).pending
    ensures Stands(q', Landed(q, q', target, i))
    ensures LandedAs(q, q', plan, target, Landed(q, q', target, i), i)
  {}

  lemma StandsAfter(q: Queues, q': Queues, dead: seq<WriterRef>, target: WriterRef, plan: seq<Carried>, b: Carried)
    requires Carries(q, q', dead, target, plan) && target !in dead && Stands(q', b)
    ensures (Stands(q, b) && b.source !in dead) || exists i: nat :: LandedAs(q, q', plan, target, b, i)
  {
    if b.source == target && b.originalSeq !in At(q, target).pending {
      var i: nat := b.originalSeq - At(q, target).nextSeq;
      PlannedLands(q, q', dead, target, plan, i);
      assert LandedAs(q, q', plan, target, b, i);
    }
  }

  lemma ShapeConserves(q: Queues, q': Queues, dead: seq<WriterRef>, target: WriterRef, plan: seq<Carried>)
    requires Carries(q, q', dead, target, plan) && target !in dead && IsPlan(q, dead, plan)
    ensures Conserves(q, q')
  {
    forall a | Outstanding(q, a) ensures Survives(a, q') {
      if a.source in dead {
        assert a in plan;
        var i: nat :| i < |plan| && plan[i] == a;
        PlannedLands(q, q', dead, target, plan, i);
      } else {
        assert Stands(q', a) && Follows(a, a);
      }
    }
    forall b | Outstanding(q', b) ensures Comes(b, q) {
      StandsAfter(q, q', dead, target, plan, b);
      if Stands(q, b) {
        assert Follows(b, b);
      } else {
        var i: nat :| LandedAs(q, q', plan, target, b, i);
        assert plan[i] in plan;
      }
    }
  }

  /** Carry conservation, for distinct dead writers none of which is the target. */
  lemma CarryConserves(c: Chain, q: Queues, dead: seq<WriterRef>, target: WriterRef)
    requires QueuesOk(q) && OneOrder(q) && NoRepeats(dead) && target !in dead && Carry(c, q, dead, target).Some?
    ensures Conserves(q, Carry(c, q, dead, target).value)
  {
    CarryShape(c, q, dead, target);
    PlanIsTheTails(q, dead);
    ShapeConserves(q, Carry(c, q, dead, target).value, dead, target, Plan(q, dead));
  }

  /** Where an entry of the carried queues stood before. */
  lemma Before(q: Queues, q': Queues, dead: seq<WriterRef>, target: WriterRef, plan: seq<Carried>, b: Carried)
    returns (a: Carried, i: nat)
    requires Carries(q, q', dead, target, plan) && target !in dead && IsPlan(q, dead, plan) && Stands(q', b)
    ensures Stands(q, a) && a.entry.position == b.entry.position
    ensures if a.source in dead then LandedAs(q, q', plan, target, b, i) && a == plan[i] else a == b
  {
    StandsAfter(q, q', dead, target, plan, b);
    i := 0;
    if Stands(q, b) && b.source !in dead {
      a := b;
    } else {
      i :| LandedAs(q, q', plan, target, b, i);
      a := plan[i];
      assert a in plan;
    }
  }

  lemma ShapeKeepsOneOrder(q: Queues, q': Queues, dead: seq<WriterRef>, target: WriterRef, plan: seq<Carried>)
    requires Carries(q, q', dead, target, plan) && target !in dead && IsPlan(q, dead, plan) && OneOrder(q)
    ensures OneOrder(q')
  {
    forall v, r: nat, w, s: nat | Holds(q', v, r) && Holds(q', w, s) && q'[v].pending[r].position == q'[w].pending[s].position
      ensures v == w && r == s
    {
      var x, i := Before(q, q', dead, target, plan, Carried(v, r, q'[v].pending[r]));
      var y, j := Before(q, q', dead, target, plan, Carried(w, s, q'[w].pending[s]));
      assert Holds(q, x.source, x.originalSeq) && Holds(q, y.source, y.originalSeq);
      assert x == y;
      if x.source in dead {
        assert i == j;
      }
    }
  }

  /** Positions stay distinct across every writer. */
  lemma CarryKeepsOneOrder(c: Chain, q: Queues, dead: seq<WriterRef>, target: WriterRef)
    requires QueuesOk(q) && OneOrder(q) && NoRepeats(dead) && target !in dead && Carry(c, q, dead, target).Some?
    ensures OneOrder(Carry(c, q, dead, target).value)
  {
    CarryShape(c, q, dead, target);
    PlanIsTheTails(q, dead);
    ShapeKeepsOneOrder(q, Carry(c, q, dead, target).value, dead, target, Plan(q, dead));
  }

  /**
   The exact condition: when the target is itself among the dead, every planned entry is
   deleted by the same transaction that wrote it, so a carry conserves if and only if the
   target is not among the dead or there was nothing to carry.
   */
  lemma CarryConservesExactly(c: Chain, q: Queues, dead: seq<WriterRef>, target: WriterRef)
    requires QueuesOk(q) && OneOrder(q) && NoRepeats(dead) && Carry(c, q, dead, target).Some?
    ensures Conserves(q, Carry(c, q, dead, target).value) <==> target !in dead || Plan(q, dead) == []
  {
    PlanIsTheTails(q, dead);
    var q' := Carry(c, q, dead, target).value;
    if target !in dead {
      CarryConserves(c, q, dead, target);
    } else if Plan(q, dead) == [] {
      forall a | Outstanding(q, a) ensures Survives(a, q') {
        assert a.source !in dead;
        assert Stands(q', a) && Follows(a, a);
      }
      forall b | Outstanding(q', b) ensures Comes(b, q) {
        assert Stands(q, b) && Follows(b, b);
      }
    } else {
      var a := Plan(q, dead)[0];
      assert a in Plan(q, dead);
      assert Outstanding(q, a);
      if Survives(a, q') {
        var b :| Stands(q', b) && Follows(a, b);
        assert b.source !in dead;
        assert Stands(q, b);
        assert Holds(q, a.source, a.originalSeq) && Holds(q, b.source, b.originalSeq);
      }
      assert !Survives(a, q');
    }
  }

  // ---- when a carry succeeds ----

  predicate Readable(c: Chain, e: Carried) { c.logical(e.entry.changeset).Some? }

  predicate Fits(e: Carried) { Storable(e.entry.position) && StorableOrigin(Origin(e.source, e.originalSeq, e.entry)) }

  /** Entries that can be stored are placed if and only if each can be hashed and the sequences do not run out. */
  lemma {:induction false} PlaceSucceeds(c: Chain, t: Queue, plan: seq<Carried>)
    requires forall e :: e in plan ==> Fits(e)
    ensures Place(c, t, plan).Some? <==>
            (forall e :: e in plan ==> Readable(c, e)) && (plan == [] || Storable(t.nextSeq + |plan|))
    decreases |plan|
  {
    if plan != [] {
      var e := plan[0];
      assert plan == [e] + plan[1..];
      match Extend(c, t, e.entry.changeset, e.entry.position, Origin(e.source, e.originalSeq, e.entry))
      case None => assert Fits(e);
      case Some(next) => PlaceSucceeds(c, next, plan[1..]);
    }
  }

  /** How many entries a set of writers holds. */
  function Weight(q: Queues, dead: seq<WriterRef>): nat {
    if dead == [] then 0 else |At(q, dead[0]).pending| + Weight(q, dead[1..])
  }

  lemma WeightOfOne(q: Queues, w: WriterRef)
    ensures Weight(q, [w]) == |At(q, w).pending|
  {
    assert [w][1..] == [];
  }

  lemma {:induction false} CollectWeighs(q: Queues, dead: seq<WriterRef>)
    ensures |Collect(q, dead)| == Weight(q, dead)
  {
    if dead != [] {
      CollectWeighs(q, dead[1..]);
      if dead[0] in q {
        assert |Ascending(q[dead[0]].pending.Keys)| == |q[dead[0]].pending|;
      }
    }
  }

  lemma PlannedFit(q: Queues, dead: seq<WriterRef>, plan: seq<Carried>, e: Carried)
    requires QueuesOk(q) && IsPlan(q, dead, plan) && e in plan
    ensures Fits(e)
  {
    assert QueueOk(q[e.source]);
  }

  /** Every entry of the dead writers can be hashed. */
  ghost predicate TailsReadable(c: Chain, q: Queues, dead: seq<WriterRef>) {
    forall w, s :: w in dead && Holds(q, w, s) ==> c.logical(q[w].pending[s].changeset).Some?
  }

  lemma PlanReadable(c: Chain, q: Queues, dead: seq<WriterRef>, plan: seq<Carried>)
    requires IsPlan(q, dead, plan)
    ensures (forall e :: e in plan ==> Readable(c, e)) <==> TailsReadable(c, q, dead)
  {
    if forall e :: e in plan ==> Readable(c, e) {
      forall w, s | w in dead && Holds(q, w, s) ensures c.logical(q[w].pending[s].changeset).Some? {
        assert Carried(w, s, q[w].pending[s]) in plan;
      }
    }
    if TailsReadable(c, q, dead) {
      forall e | e in plan ensures Readable(c, e) {
        assert Holds(q, e.source, e.originalSeq);
      }
    }
  }

  /** The queue's sequences do not run out over `n` more entries. */
  predicate HasRoom(t: Queue, n: nat) { n == 0 || Storable(t.nextSeq + n) }

  lemma PlanSucceeds(c: Chain, q: Queues, dead: seq<WriterRef>, plan: seq<Carried>, t: Queue)
    requires QueuesOk(q) && IsPlan(q, dead, plan)
    ensures Place(c, t, plan).Some? <==> TailsReadable(c, q, dead) && HasRoom(t, |plan|)
  {
    forall e | e in plan ensures Fits(e) {
      PlannedFit(q, dead, plan, e);
    }
    PlaceSucceeds(c, t, plan);
    PlanReadable(c, q, dead, plan);
  }

  lemma PlanWeighs(q: Queues, dead: seq<WriterRef>)
    ensures |Plan(q, dead)| == Weight(q, dead)
  {
    CollectWeighs(q, dead);
  }

  lemma PlanPlaces(c: Chain, q: Queues, dead: seq<WriterRef>, t: Queue)
    requires QueuesOk(q) && OneOrder(q) && NoRepeats(dead)
    ensures Place(c, t, Plan(q, dead)).Some? <==>
            TailsReadable(c, q, dead) && HasRoom(t, |Plan(q, dead)|)
  {
    PlanIsTheTails(q, dead);
    PlanSucceeds(c, q, dead, Plan(q, dead), t);
  }

  lemma CarryPlaces(c: Chain, q: Queues, dead: seq<WriterRef>, target: WriterRef)
    ensures Carry(c, q, dead, target).Some? <==> Place(c, At(q, target), Plan(q, dead)).Some?
  {}

  /**
   A carry is refused exactly when some entry of the dead cannot be hashed or the target's
   sequences run out.
   */
  lemma CarrySucceeds(c: Chain, q: Queues, dead: seq<WriterRef>, target: WriterRef)
    requires QueuesOk(q) && OneOrder(q) && NoRepeats(dead)
    ensures Carry(c, q, dead, target).Some? <==>
            TailsReadable(c, q, dead) && HasRoom(At(q, target), Weight(q, dead))
  {
    CarryPlaces(c, q, dead, target);
    PlanWeighs(q, dead);
    PlanPlaces(c, q, dead, At(q, target));
  }

  // ---- the hash chain ----

  datatype Logged = Logged(seqNo: nat, changeset: Bytes, hash: Digest)

  /** `log` links `from` to `head`, each hash over the one before it. */
  ghost predicate Chained(c: Chain, from: Digest, log: seq<Logged>, head: Digest)
    decreases |log|
  {
    if log == [] then head == from
    else c.Hash(from, log[0].seqNo, log[0].changeset) == Some(log[0].hash) && Chained(c, log[0].hash, log[1..], head)
  }

  lemma {:induction false} ChainedConcat(c: Chain, from: Digest, log: seq<Logged>, mid: Digest, more: seq<Logged>, head: Digest)
    requires Chained(c, from, log, mid) && Chained(c, mid, more, head)
    ensures Chained(c, from, log + more, head)
    decreases |log|
  {
    if log == [] {
      assert log + more == more;
    } else {
      ChainedConcat(c, log[0].hash, log[1..], mid, more, head);
      assert (log + more)[1..] == log[1..] + more;
    }
  }

  function LogOf(t: Queue, s: nat): Logged
    requires s in t.pending
  {
    Logged(s, t.pending[s].changeset, t.pending[s].hash)
  }

  /** What placing a plan appends to the target's log. */
  function PlacedLog(c: Chain, t: Queue, plan: seq<Carried>): seq<Logged>
    requires Place(c, t, plan).Some?
    decreases |plan|
  {
    if plan == [] then []
    else
      var e := plan[0];
      var next := Extend(c, t, e.entry.changeset, e.entry.position, Origin(e.source, e.originalSeq, e.entry)).value;
      [LogOf(next, t.nextSeq)] + PlacedLog(c, next, plan[1..])
  }

  /**
   The queue's log lists what it appended, in sequence order, and covers every pending
   entry, each hashed when it was appended. While the last appended one is pending, the
   head is its hash.
   */
  ghost predicate Covers(c: Chain, t: Queue, log: seq<Logged>) {
    && (forall i, j :: 0 <= i < j < |log| ==> log[i].seqNo < log[j].seqNo)
    && (forall i :: 0 <= i < |log| ==> log[i].seqNo < t.nextSeq)
    && (forall s :: s in t.pending ==> LogOf(t, s) in log && c.logical(t.pending[s].changeset).Some?)
    && (log != [] && log[|log| - 1].seqNo in t.pending ==> t.head == log[|log| - 1].hash)
  }

  /** The log covers the queue and, unless a restart has moved the head off it, chains from genesis to the head. */
  ghost predicate LogOk(c: Chain, t: Queue, log: seq<Logged>, astray: bool) {
    Covers(c, t, log) && (astray || Chained(c, GENESIS, log, t.head))
  }

  lemma ExtendCovers(c: Chain, t: Queue, log: seq<Logged>, changeset: Bytes, position: nat, origin: Option<Provenance>)
    requires Covers(c, t, log) && Extend(c, t, changeset, position, origin).Some?
    ensures var next := Extend(c, t, changeset, position, origin).value;
            Covers(c, next, log + [LogOf(next, t.nextSeq)])
  {
    var next := Extend(c, t, changeset, position, origin).value;
    var last := LogOf(next, t.nextSeq);
    forall s | s in next.pending ensures LogOf(next, s) in log + [last] && c.logical(next.pending[s].changeset).Some? {
      if s != t.nextSeq {
        assert LogOf(next, s) == LogOf(t, s);
      }
    }
  }

  lemma ExtendLog(c: Chain, t: Queue, log: seq<Logged>, astray: bool, changeset: Bytes, position: nat, origin: Option<Provenance>)
    requires LogOk(c, t, log, astray) && Extend(c, t, changeset, position, origin).Some?
    ensures var next := Extend(c, t, changeset, position, origin).value;
            LogOk(c, next, log + [LogOf(next, t.nextSeq)], astray)
  {
    ExtendCovers(c, t, log, changeset, position, origin);
    if !astray {
      var next := Extend(c, t, changeset, position, origin).value;
      var last := LogOf(next, t.nextSeq);
      assert Chained(c, t.head, [last], next.head) by {
        assert [last][1..] == [];
      }
      ChainedConcat(c, GENESIS, log, t.head, [last], next.head);
    }
  }

  lemma Regroup(log: seq<Logged>, x: Logged, more: seq<Logged>)
    ensures log + [x] + more == log + ([x] + more)
  {}

  /** A carry leaves the target's log a valid hash chain from genesis to its new head. */
  lemma {:induction false} PlaceLog(c: Chain, t: Queue, log: seq<Logged>, astray: bool, plan: seq<Carried>)
    requires LogOk(c, t, log, astray) && Place(c, t, plan).Some?
    ensures LogOk(c, Place(c, t, plan).value, log + PlacedLog(c, t, plan), astray)
    decreases |plan|
  {
    if plan == [] {
      assert log + [] == log;
    } else {
      var e := plan[0];
      var origin := Origin(e.source, e.originalSeq, e.entry);
      var next := Extend(c, t, e.entry.changeset, e.entry.position, origin).value;
      ExtendLog(c, t, log, astray, e.entry.changeset, e.entry.position, origin);
      PlaceLog(c, next, log + [LogOf(next, t.nextSeq)], astray, plan[1..]);
      Regroup(log, LogOf(next, t.nextSeq), PlacedLog(c, next, plan[1..]));
    }
  }
}
