/**
 A reload that loses a head. The load takes a queue's head from its last pending entry, so
 once a later entry has been answered the head in memory is not the one that comes back.
 */
module WriterReload {
  import opened Common
  import opened WriterNames
  import opened WriterQueues
  import opened WriterDisk
  import opened WriterState
  import opened WriterRuns
  import opened WriterTheorems

  /** The hashes of a writer's first two entries. */
  function FirstHash(c: Chain, a: Bytes): Digest
    requires c.logical(a).Some?
  {
    c.link(GENESIS, 1, c.logical(a).value)
  }

  function SecondHash(c: Chain, a: Bytes, b: Bytes): Digest
    requires c.logical(a).Some? && c.logical(b).Some?
  {
    c.link(FirstHash(c, a), 2, c.logical(b).value)
  }

  /** A queue of one write, and of two. */
  function OneWrite(c: Chain, a: Bytes): Queue
    requires c.logical(a).Some?
  {
    Queue(2, FirstHash(c, a), map[1 := Entry(a, FirstHash(c, a), 1, None)])
  }

  function TwoWrites(c: Chain, a: Bytes, b: Bytes): Queue
    requires c.logical(a).Some? && c.logical(b).Some?
  {
    Queue(3, SecondHash(c, a, b), OneWrite(c, a).pending[2 := Entry(b, SecondHash(c, a, b), 2, None)])
  }

  /** Two writes, a number for them, the second refused, the process killed. */
  function Forgetful(n: U64, a: Bytes, b: Bytes): seq<Event> {
    [Push(None, a), Push(None, b), Attach(None, false, false, Acked(Some(Grant(n, 0)))), Refuse(2, false), Die]
  }

  lemma FirstPushed(c: Chain, a: Bytes)
    requires c.logical(a).Some?
    ensures var r := Pushed(c, EMPTY, None, a);
            r.queues == map[UNISSUED := OneWrite(c, a)] && r.nextPosition == 2 && r.retired == {} && r.history.issued == {}
  {}

  lemma SecondPushed(c: Chain, r: Replica, a: Bytes, b: Bytes)
    requires c.logical(a).Some? && c.logical(b).Some?
    requires r.queues == map[UNISSUED := OneWrite(c, a)] && r.nextPosition == 2
    ensures var r' := Pushed(c, r, None, b);
            r'.queues == map[UNISSUED := TwoWrites(c, a, b)] && r'.retired == r.retired && r'.history.issued == r.history.issued
  {
    assert NumberIdentity(r.queues) == None;
  }

  lemma AsksForNumber(r: Replica, t: Queue)
    requires r.queues == map[UNISSUED := t] && t.pending != map[]
    ensures Handshake(r, None, false) == AskIssue
  {}

  lemma IssuedQueues(r: Replica, n: U64)
    requires n != 0 && Issue(r, n).Some?
    ensures Issue(r, n).value.queues == r.queues[Number(n) := At(r.queues, UNISSUED)] - {UNISSUED}
  {}

  lemma OneRenamed(n: U64, t: Queue)
    requires n != 0
    ensures map[UNISSUED := t][Number(n) := t] - {UNISSUED} == map[Number(n) := t]
  {}

  lemma RaisedToNothing(r: Replica, w: WriterRef, t: Queue)
    requires r.queues == map[w := t] && 1 <= t.nextSeq
    ensures Raise(r, w, 0) == r
  {}

  lemma IssueGranted(c: Chain, r: Replica, n: U64, r1: Replica)
    requires n != 0 && Issue(r, n) == Some(r1)
    ensures Granted(c, r, AskIssue, Some(Grant(n, 0)), None) == Some((r1, Some(Number(n))))
  {}

  lemma Connected(c: Chain, r: Replica, grant: Grant, r1: Replica, w: WriterRef)
    requires Granted(c, r, Handshake(r, None, false), Some(grant), None) == Some((r1, Some(w))) && w.Number?
    ensures Connect(c, r, None, false, false, Some(grant)) ==
            Some(Raise(r1.(bound := Some(w), connected := true), w, grant.frontier))
  {
    var r2 := r1.(bound := Some(w), connected := true);
    assert PlanBind(r2, None, false, false) == r2;
  }

  lemma AttachConnects(c: Chain, r: Replica, grant: Grant, r': Replica)
    requires Connect(c, r, None, false, false, Some(grant)) == Some(r')
    ensures Attached(c, r, None, false, false, Acked(Some(grant))) == r'
  {}

  lemma NumberTaken(c: Chain, r: Replica, n: U64, t: Queue)
    requires Inv(c, r) && r.queues == map[UNISSUED := t] && t.pending != map[] && n != 0 && n !in r.history.issued
    requires 1 <= t.nextSeq
    ensures var r' := Attached(c, r, None, false, false, Acked(Some(Grant(n, 0))));
            r'.queues == map[Number(n) := t] && r'.bound == Some(Number(n))
  {
    AsksForNumber(r, t);
    IssueInv(c, r, n);
    var r1 := Issue(r, n).value;
    var r2 := r1.(bound := Some(Number(n)), connected := true);
    IssueGranted(c, r, n, r1);
    Connected(c, r, Grant(n, 0), r1, Number(n));
    AttachConnects(c, r, Grant(n, 0), Raise(r2, Number(n), 0));
    IssuedQueues(r, n);
    OneRenamed(n, t);
    RaisedToNothing(r2, Number(n), t);
  }

  lemma SecondRefused(c: Chain, r: Replica, w: WriterRef, a: Bytes, b: Bytes)
    requires c.logical(a).Some? && c.logical(b).Some?
    requires r.queues == map[w := TwoWrites(c, a, b)] && r.bound == Some(w)
    ensures var r' := SettleBound(r, 2, false);
            r'.queues == map[w := Queue(3, SecondHash(c, a, b), OneWrite(c, a).pending)]
  {
    assert TwoWrites(c, a, b).pending - {2} == OneWrite(c, a).pending;
  }

  lemma LoadedHead(c: Chain, r: Replica, w: WriterRef, t: Queue)
    requires Inv(c, r) && r.queues == map[w := t] && t.pending != map[]
    ensures SameButHeads(r.queues, Load(r.disk)) && Load(r.disk)[w].head == LastHash(t)
  {
    InvHolds(c, r);
    LoadRebuilds(r.queues, r.disk, r.history.astray);
  }

  lemma ReloadedHead(c: Chain, r: Replica, w: WriterRef, t: Queue, head: Digest)
    requires Inv(c, r) && r.queues == map[w := t] && t.pending.Keys == {1} && t.pending[1].hash == head
    ensures Restart(r).queues == Load(r.disk) == map[w := t.(head := head)]
  {
    LoadedHead(c, r, w, t);
    assert LastHash(t) == head by {
      assert Greatest(t.pending.Keys) in {1};
    }
  }

  lemma ForgetfulRuns(c: Chain, n: U64, a: Bytes, b: Bytes, t: seq<Replica>)
    requires c.logical(a).Some? && c.logical(b).Some? && Leads(c, t, Forgetful(n, a, b))
    ensures IsRun(c, t, Forgetful(n, a, b))
    ensures t[2].queues == map[UNISSUED := TwoWrites(c, a, b)] && t[2].history.issued == {}
  {
    FiveSteps(c, t, Forgetful(n, a, b));
    TookPush(c, EMPTY, None, a, t[1]);
    FirstPushed(c, a);
    TookPush(c, t[1], None, b, t[2]);
    SecondPushed(c, t[1], a, b);
    SaneTraceRuns(c, t, Forgetful(n, a, b));
  }

  lemma Forgotten(c: Chain, n: U64, a: Bytes, b: Bytes, t: seq<Replica>)
    requires c.logical(a).Some? && c.logical(b).Some? && n != 0
    requires Leads(c, t, Forgetful(n, a, b)) && Inv(c, t[2]) && Inv(c, t[4])
    requires t[2].queues == map[UNISSUED := TwoWrites(c, a, b)] && t[2].history.issued == {}
    ensures t[4].queues == map[Number(n) := Queue(3, SecondHash(c, a, b), OneWrite(c, a).pending)]
    ensures t[5].queues == Load(t[4].disk) == map[Number(n) := Queue(3, FirstHash(c, a), OneWrite(c, a).pending)]
  {
    FiveSteps(c, t, Forgetful(n, a, b));
    TookAttach(c, t[2], None, false, false, Acked(Some(Grant(n, 0))), t[3]);
    assert 1 in TwoWrites(c, a, b).pending;
    NumberTaken(c, t[2], n, TwoWrites(c, a, b));
    TookAnswer(c, t[3], Refuse(2, false), t[4]);
    SecondRefused(c, t[3], Number(n), a, b);
    TookDeath(c, t[4], t[5]);
    ReloadedHead(c, t[4], Number(n), t[4].queues[Number(n)], FirstHash(c, a));
  }

  /**
   After that run the queue is what it was but for its head, which is the first entry's hash
   again: whenever the two hashes differ the chain goes on from an earlier link.
   */
  lemma ReloadForgetsHead(c: Chain, n: U64, a: Bytes, b: Bytes, t: seq<Replica>)
    requires c.logical(a).Some? && c.logical(b).Some? && n != 0 && Leads(c, t, Forgetful(n, a, b))
    ensures IsRun(c, t, Forgetful(n, a, b))
    ensures t[4].queues == map[Number(n) := Queue(3, SecondHash(c, a, b), OneWrite(c, a).pending)]
    ensures t[5].queues == Load(t[4].disk) == map[Number(n) := Queue(3, FirstHash(c, a), OneWrite(c, a).pending)]
    ensures FirstHash(c, a) != SecondHash(c, a, b) ==> t[5].queues[Number(n)].head != t[4].queues[Number(n)].head
  {
    ForgetfulRuns(c, n, a, b, t);
    RunInv(c, t, Forgetful(n, a, b), 2);
    RunInv(c, t, Forgetful(n, a, b), 4);
    Forgotten(c, n, a, b, t);
  }
}
