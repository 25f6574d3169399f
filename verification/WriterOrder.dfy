/**
 One append order: the replica's outstanding writes, listed by position, are its writes in
 the order they were made. Every event either keeps that list, adds at its end or takes
 one entry out of it, and an archive restores in it.
 */
module WriterOrder {
  import opened Common
  import opened WriterNames
  import opened WriterQueues
  import opened WriterCarry
  import opened WriterState
  import opened WriterRuns
  import opened WriterConservation

  /** The outstanding entries by ascending position, as the re-apply and the export list them. */
  ghost function Outstandings(q: Queues): seq<Carried> { Plan(q, Listing(q.Keys)) }

  ghost predicate IsListing(q: Queues, s: seq<Carried>) {
    && PositionsAscend(s)
    && (forall e :: e in s <==> Stands(q, e))
  }

  lemma OutstandingsList(q: Queues)
    requires OneOrder(q)
    ensures IsListing(q, Outstandings(q))
  {
    PlanIsTheTails(q, Listing(q.Keys));
  }

  lemma ListingExists(q: Queues) returns (s: seq<Carried>)
    requires OneOrder(q)
    ensures IsListing(q, s)
  {
    s := Outstandings(q);
    OutstandingsList(q);
  }

  lemma FirstsAgree(s: seq<Carried>, t: seq<Carried>)
    requires PositionsAscend(s) && PositionsAscend(t) && s != []
    requires forall e :: e in s <==> e in t
    ensures t != [] && t[0] == s[0]
  {
    assert s[0] in t;
    var k :| 0 <= k < |t| && t[k] == s[0];
    assert t[0] in s;
    var m :| 0 <= m < |s| && s[m] == t[0];
  }

  /** The listing is the only one: neither the walk of the maps nor an unstable sort shows in it. */
  lemma {:induction false} AscendingListsAgree(s: seq<Carried>, t: seq<Carried>)
    requires PositionsAscend(s) && PositionsAscend(t)
    requires forall e :: e in s <==> e in t
    ensures s == t
    decreases |s|
  {
    if s == [] {
      assert forall i :: 0 <= i < |t| ==> t[i] in s;
    } else {
      FirstsAgree(s, t);
      forall e ensures e in s[1..] <==> e in t[1..] {
        TailOfAscending(s, e);
        TailOfAscending(t, e);
      }
      AscendingListsAgree(s[1..], t[1..]);
      assert s == [s[0]] + s[1..] && t == [t[0]] + t[1..];
    }
  }

  lemma TailOfAscending(s: seq<Carried>, e: Carried)
    requires PositionsAscend(s) && s != []
    ensures e in s[1..] <==> e in s && e != s[0]
  {}

  lemma ListingIsOne(q: Queues, s: seq<Carried>, t: seq<Carried>)
    requires IsListing(q, s) && IsListing(q, t)
    ensures s == t
  {
    assert forall e :: e in s <==> Stands(q, e);
    AscendingListsAgree(s, t);
  }

  /** The same writes in the same order, each moved or left. */
  ghost predicate Aligned(s: seq<Carried>, t: seq<Carried>) {
    |s| == |t| && forall i :: 0 <= i < |s| ==> Follows(s[i], t[i])
  }

  // ---- events that only move ----

  lemma FirstFollows(q: Queues, q': Queues, s: seq<Carried>, t: seq<Carried>, i: nat)
    requires Conserves(q, q') && IsListing(q, s) && IsListing(q', t) && i < |s| && i < |t|
    requires forall k :: 0 <= k < i ==> Follows(s[k], t[k])
    ensures Follows(s[i], t[i])
  {
    var j := LandsAmong(q, q', s, t, i);
    var m := CameFrom(q, q', s, t, i);
    assert forall k :: 0 <= k < i ==> s[k].entry.position == t[k].entry.position;
    assert i <= j && i <= m;
  }

  lemma LandsAmong(q: Queues, q': Queues, s: seq<Carried>, t: seq<Carried>, i: nat) returns (j: nat)
    requires Conserves(q, q') && IsListing(q, s) && IsListing(q', t) && i < |s|
    ensures j < |t| && Follows(s[i], t[j])
  {
    assert s[i] in s;
    assert Outstanding(q, s[i]);
    var b :| Stands(q', b) && Follows(s[i], b);
    assert b in t;
    j :| 0 <= j < |t| && t[j] == b;
  }

  lemma CameFrom(q: Queues, q': Queues, s: seq<Carried>, t: seq<Carried>, i: nat) returns (m: nat)
    requires Conserves(q, q') && IsListing(q, s) && IsListing(q', t) && i < |t|
    ensures m < |s| && Follows(s[m], t[i])
  {
    assert t[i] in t;
    assert Outstanding(q', t[i]);
    var a :| Stands(q, a) && Follows(a, t[i]);
    assert a in s;
    m :| 0 <= m < |s| && s[m] == a;
  }

  lemma {:induction false} ConservedListsAlign(q: Queues, q': Queues, s: seq<Carried>, t: seq<Carried>, n: nat)
    requires Conserves(q, q') && IsListing(q, s) && IsListing(q', t) && n <= |s| && n <= |t|
    ensures forall k :: 0 <= k < n ==> Follows(s[k], t[k])
    decreases n
  {
    if n > 0 {
      ConservedListsAlign(q, q', s, t, n - 1);
      FirstFollows(q, q', s, t, n - 1);
    }
  }

  lemma ConservesAligns(q: Queues, q': Queues, s: seq<Carried>, t: seq<Carried>)
    requires Conserves(q, q') && IsListing(q, s) && IsListing(q', t)
    ensures Aligned(s, t)
  {
    var n := Min(|s|, |t|);
    ConservedListsAlign(q, q', s, t, n);
    assert forall k :: 0 <= k < n ==> s[k].entry.position == t[k].entry.position;
    if n < |s| {
      var j := LandsAmong(q, q', s, t, n);
      assert false;
    }
    if n < |t| {
      var m := CameFrom(q, q', s, t, n);
      assert false;
    }
  }

  /** Carry, re-key, bind, exclusion, fatal error and restart all keep the append order, but for the event that loses. */
  lemma MovesKeepOrder(c: Chain, r: Replica, e: Event, r': Replica, s: seq<Carried>, t: seq<Carried>)
    requires Inv(c, r) && Sane(r, e) && Moves(e) && !Loses(r, e) && Takes(c, r, e, r')
    requires IsListing(r.queues, s) && IsListing(r'.queues, t)
    ensures Aligned(s, t)
  {
    MovesConserve(c, r, e, r');
    ConservesAligns(r.queues, r'.queues, s, t);
  }

  // ---- events that add ----

  lemma AddedLast(q: Queues, q': Queues, s: seq<Carried>, t: seq<Carried>, added: Carried)
    requires IsListing(q, s) && IsListing(q', t) && PositionsBelow(q, added.entry.position)
    requires forall e :: Stands(q', e) <==> Stands(q, e) || e == added
    ensures t == s + [added]
  {
    forall i | 0 <= i < |s| ensures s[i].entry.position < added.entry.position {
      assert s[i] in s;
    }
    assert PositionsAscend(s + [added]);
    assert forall e :: e in s + [added] <==> e in s || e == added;
    AscendingListsAgree(t, s + [added]);
  }

  /** What an append adds. */
  function Added(r: Replica, r': Replica, w: WriterRef): Carried
    requires w in r'.queues && At(r.queues, w).nextSeq in r'.queues[w].pending
  {
    Carried(w, At(r.queues, w).nextSeq, r'.queues[w].pending[At(r.queues, w).nextSeq])
  }

  lemma AppendAdds(c: Chain, r: Replica, w: WriterRef, changeset: Bytes, origin: Option<Provenance>, e: Carried)
    requires QueuesOk(r.queues) && Append(c, r, w, changeset, origin).Some?
    ensures var r' := Append(c, r, w, changeset, origin).value;
            Stands(r'.queues, e) <==> Stands(r.queues, e) || e == Added(r, r', w)
  {
    assert QueueOk(At(r.queues, w));
    var t := At(r.queues, w);
    var next := Extend(c, t, changeset, r.nextPosition, origin).value;
    PutAdds(r.queues, w, next, t.nextSeq, next.pending[t.nextSeq], e);
  }

  lemma PutAdds(q: Queues, w: WriterRef, t: Queue, s: nat, x: Entry, e: Carried)
    requires s !in At(q, w).pending && t.pending == At(q, w).pending[s := x]
    ensures Stands(q[w := t], e) <==> Stands(q, e) || e == Carried(w, s, x)
  {}

  lemma AppendEndsOrder(c: Chain, r: Replica, w: WriterRef, changeset: Bytes, origin: Option<Provenance>, s: seq<Carried>, t: seq<Carried>)
    requires QueuesOk(r.queues) && PositionsBelow(r.queues, r.nextPosition) && Append(c, r, w, changeset, origin).Some?
    requires IsListing(r.queues, s) && IsListing(Append(c, r, w, changeset, origin).value.queues, t)
    ensures t == s + [Added(r, Append(c, r, w, changeset, origin).value, w)]
  {
    var r' := Append(c, r, w, changeset, origin).value;
    forall e ensures Stands(r'.queues, e) <==> Stands(r.queues, e) || e == Added(r, r', w) {
      AppendAdds(c, r, w, changeset, origin, e);
    }
    AddedLast(r.queues, r'.queues, s, t, Added(r, r', w));
  }

  /** A pushed write goes behind every outstanding one. */
  lemma PushEndsOrder(c: Chain, r: Replica, cert: Option<Digest>, changeset: Bytes, s: seq<Carried>, t: seq<Carried>)
    requires Inv(c, r) && Append(c, r, ChooseWriter(r, cert), changeset, None).Some?
    requires IsListing(r.queues, s) && IsListing(Pushed(c, r, cert, changeset).queues, t)
    ensures |t| == |s| + 1 && t[..|s|] == s
    ensures t[|s|].source == ChooseWriter(r, cert) && t[|s|].entry.changeset == changeset && t[|s|].entry.provenance == None
  {
    InvHolds(c, r);
    AppendEndsOrder(c, r, ChooseWriter(r, cert), changeset, None, s, t);
  }

  /** How many of the archive's entries the append loop stores before one cannot be. */
  function Stored(c: Chain, r: Replica, w: WriterRef, archive: seq<Archived>): (n: nat)
    ensures n <= |archive|
    decreases |archive|
  {
    if archive == [] then 0
    else match Append(c, r, w, archive[0].changeset, ArchivedOrigin(archive[0]))
      case None => 0
      case Some(r') => 1 + Stored(c, r', w, archive[1..])
  }

  /** Each archived write under its new writer, its first real origin kept. */
  ghost predicate Requeued(archive: seq<Archived>, w: WriterRef, s: seq<Carried>) {
    |s| <= |archive| && forall i :: 0 <= i < |s| ==>
      s[i].source == w && s[i].entry.changeset == archive[i].changeset && s[i].entry.provenance == ArchivedOrigin(archive[i])
  }

  lemma RequeuedFirst(archive: seq<Archived>, w: WriterRef, first: Carried, rest: seq<Carried>)
    requires archive != [] && Requeued(archive[..1], w, [first]) && Requeued(archive[1..], w, rest)
    ensures Requeued(archive, w, [first] + rest)
  {
    var all := [first] + rest;
    forall i | 0 <= i < |all|
      ensures all[i].source == w && all[i].entry.changeset == archive[i].changeset && all[i].entry.provenance == ArchivedOrigin(archive[i])
    {
      if i > 0 {
        assert all[i] == rest[i - 1] && archive[i] == archive[1..][i - 1];
      }
    }
  }

  lemma BehindFirst(archive: seq<Archived>, w: WriterRef, s: seq<Carried>, first: Carried, t: seq<Carried>)
    requires archive != [] && |s| < |t| && t[..|s| + 1] == s + [first]
    requires Requeued(archive[..1], w, [first]) && Requeued(archive[1..], w, t[|s| + 1..])
    ensures t[..|s|] == s && Requeued(archive, w, t[|s|..])
  {
    assert t == t[..|s| + 1] + t[|s| + 1..];
    assert t[|s|..] == [first] + t[|s| + 1..];
    RequeuedFirst(archive, w, first, t[|s| + 1..]);
  }

  lemma AppendArchived(c: Chain, r: Replica, w: WriterRef, a: Archived, s: seq<Carried>) returns (m: seq<Carried>, first: Carried)
    requires QueuesInv(r) && MayOwn(r.queues, r.retired, w) && IsListing(r.queues, s)
    requires Append(c, r, w, a.changeset, ArchivedOrigin(a)).Some?
    ensures var r1 := Append(c, r, w, a.changeset, ArchivedOrigin(a)).value;
            QueuesInv(r1) && MayOwn(r1.queues, r1.retired, w) && IsListing(r1.queues, m)
    ensures m == s + [first] && Requeued([a], w, [first])
  {
    var r1 := Append(c, r, w, a.changeset, ArchivedOrigin(a)).value;
    AppendQueues(c, r, w, a.changeset, ArchivedOrigin(a));
    AppendOwns(c, r, w, a.changeset, ArchivedOrigin(a));
    m := ListingExists(r1.queues);
    AppendEndsOrder(c, r, w, a.changeset, ArchivedOrigin(a), s, m);
    first := Added(r, r1, w);
  }

  lemma {:induction false} AppendAllEndsOrder(c: Chain, r: Replica, w: WriterRef, archive: seq<Archived>, s: seq<Carried>, t: seq<Carried>)
    requires QueuesInv(r) && MayOwn(r.queues, r.retired, w)
    requires IsListing(r.queues, s) && IsListing(AppendAll(c, r, w, archive).queues, t)
    ensures |t| == |s| + Stored(c, r, w, archive) && t[..|s|] == s && Requeued(archive, w, t[|s|..])
    decreases |archive|
  {
    if archive == [] || Append(c, r, w, archive[0].changeset, ArchivedOrigin(archive[0])).None? {
      ListingIsOne(r.queues, s, t);
    } else {
      var m, first := AppendArchived(c, r, w, archive[0], s);
      AppendAllEndsOrder(c, Append(c, r, w, archive[0].changeset, ArchivedOrigin(archive[0])).value, w, archive[1..], m, t);
      assert archive[..1] == [archive[0]];
      BehindFirst(archive, w, s, first, t);
    }
  }

  // ---- export, then restore ----

  /** The archived form of a listing. */
  function Export(s: seq<Carried>): (r: seq<Archived>)
    ensures |r| == |s|
    ensures forall i :: 0 <= i < |s| ==> ArchivedOrigin(r[i]) == Origin(s[i].source, s[i].originalSeq, s[i].entry)
  {
    seq(|s|, i requires 0 <= i < |s| => Archived(s[i].source, s[i].originalSeq, s[i].entry.changeset, s[i].entry.provenance))
  }

  lemma RestoreReady(c: Chain, r: Replica, cert: Option<Digest>, archive: seq<Archived>, s: seq<Carried>, t: seq<Carried>)
    requires Inv(c, r) && ReadyToRestore(c, r, cert, archive).Some?
    requires IsListing(r.queues, s) && IsListing(ReadyToRestore(c, r, cert, archive).value.0.queues, t)
    ensures Aligned(s, t)
  {
    assert QueuesInv(r) by {
      InvHolds(c, r);
    }
    ReadyConserves(c, r, cert, archive);
    ConservesAligns(r.queues, ReadyToRestore(c, r, cert, archive).value.0.queues, s, t);
  }

  /** A restore keeps the replica's own writes in order and puts the archive's behind them. */
  lemma RestoreEndsOrder(c: Chain, r: Replica, cert: Option<Digest>, archive: seq<Archived>, s: seq<Carried>, t: seq<Carried>)
    requires Inv(c, r) && archive != [] && ReadyToRestore(c, r, cert, archive).Some?
    requires IsListing(r.queues, s) && IsListing(Restored(c, r, cert, archive).queues, t)
    ensures var (r1, w) := ReadyToRestore(c, r, cert, archive).value;
            |t| == |s| + Stored(c, r1, w, archive) && Aligned(s, t[..|s|]) && Requeued(archive, w, t[|s|..])
  {
    var (r1, w) := ReadyToRestore(c, r, cert, archive).value;
    GoodReady(c, r, cert, archive);
    InvHolds(c, r1);
    var m := ListingExists(r1.queues);
    RestoreReady(c, r, cert, archive, s, m);
    AppendAllEndsOrder(c, r1, w, archive, m, t);
  }

  /** The listed write at its new place: the same changeset, under its first real origin. */
  predicate SameWrite(a: Carried, b: Carried) {
    b.entry.changeset == a.entry.changeset && b.entry.provenance == Origin(a.source, a.originalSeq, a.entry)
  }

  /**
   A replica's export restored on another (or on itself) re-queues the same changesets in
   the same order behind everything that replica holds, each under its first real origin.
   */
  lemma ExportThenRestore(c: Chain, exported: seq<Carried>, archive: seq<Archived>, r: Replica, cert: Option<Digest>, s: seq<Carried>, t: seq<Carried>)
    requires Inv(c, r) && exported != [] && archive == Export(exported) && ReadyToRestore(c, r, cert, archive).Some?
    requires IsListing(r.queues, s) && IsListing(Restored(c, r, cert, archive).queues, t)
    ensures var (r1, w) := ReadyToRestore(c, r, cert, archive).value; |t| == |s| + Stored(c, r1, w, archive)
    ensures Aligned(s, t[..|s|])
    ensures forall i :: |s| <= i < |t| ==> SameWrite(exported[i - |s|], t[i])
  {
    var w := ReadyToRestore(c, r, cert, archive).value.1;
    RestoreEndsOrder(c, r, cert, archive, s, t);
    RequeuedExport(exported, w, s, t);
  }

  lemma RequeuedExport(exported: seq<Carried>, w: WriterRef, s: seq<Carried>, t: seq<Carried>)
    requires |s| <= |t| && Requeued(Export(exported), w, t[|s|..])
    ensures |t| - |s| <= |exported| && forall i :: |s| <= i < |t| ==> SameWrite(exported[i - |s|], t[i])
  {
    forall i | |s| <= i < |t| ensures SameWrite(exported[i - |s|], t[i]) {
      assert t[i] == t[|s|..][i - |s|];
    }
  }

  /** A restore stores the whole archive exactly when every entry can be hashed and stored in its turn. */
  lemma {:induction false} StoredAll(c: Chain, r: Replica, w: WriterRef, archive: seq<Archived>)
    requires At(r.queues, w).nextSeq + |archive| <= STORAGE_MAX && r.nextPosition + |archive| <= STORAGE_MAX + 1
    requires forall a :: a in archive ==> StorableOrigin(ArchivedOrigin(a))
    ensures Stored(c, r, w, archive) == |archive| <==> forall a :: a in archive ==> c.logical(a.changeset).Some?
    decreases |archive|
  {
    if archive != [] {
      assert archive[0] in archive;
      match Append(c, r, w, archive[0].changeset, ArchivedOrigin(archive[0]))
      case None =>
      case Some(r1) =>
        assert forall a :: a in archive <==> a == archive[0] || a in archive[1..] by {
          assert archive == [archive[0]] + archive[1..];
        }
        StoredAll(c, r1, w, archive[1..]);
    }
  }

  // ---- events that take one out ----

  function Omit(s: seq<Carried>, w: WriterRef, n: nat): (r: seq<Carried>)
    ensures forall e :: e in r <==> e in s && !(e.source == w && e.originalSeq == n)
  {
    if s == [] then []
    else
      assert s == [s[0]] + s[1..];
      if s[0].source == w && s[0].originalSeq == n then Omit(s[1..], w, n) else [s[0]] + Omit(s[1..], w, n)
  }

  lemma {:induction false} OmitAscends(s: seq<Carried>, w: WriterRef, n: nat)
    requires PositionsAscend(s)
    ensures PositionsAscend(Omit(s, w, n))
  {
    if s != [] {
      OmitAscends(s[1..], w, n);
      var rest := Omit(s[1..], w, n);
      forall j | 0 <= j < |rest| ensures s[0].entry.position < rest[j].entry.position {
        assert rest[j] in rest && rest[j] in s[1..];
        var k :| 0 <= k < |s| - 1 && s[1..][k] == rest[j];
        assert s[k + 1] == rest[j];
      }
    }
  }

  /** An answer takes the one write it settles out of the order and leaves the others in it. */
  lemma AnswerLeavesOrder(c: Chain, r: Replica, e: Event, r': Replica, s: seq<Carried>, t: seq<Carried>)
    requires Takes(c, r, e, r') && (e.Applied? || e.Refuse?) && r.bound.Some?
    requires IsListing(r.queues, s) && IsListing(r'.queues, t)
    ensures t == Omit(s, r.bound.value, e.seqNo)
  {
    OmitAscends(s, r.bound.value, e.seqNo);
    AnswerRemovesOne(c, r, e, r');
    AscendingListsAgree(t, Omit(s, r.bound.value, e.seqNo));
  }
}
