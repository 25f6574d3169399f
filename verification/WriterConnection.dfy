/**
 The connection's writer state as the client holds it: queues in memory, tables on disk,
 both updated in place. Each method is proved to take the step the protocol model takes,
 so what is proved of every run there is proved of these methods.
 */
module WriterConnection {
  import opened Common
  import opened WriterNames
  import opened WriterQueues
  import opened WriterDisk
  import opened WriterState
  import opened WriterRuns
  import opened WriterPlacement
  import opened WriterOrder

  // ---- the load ----

  function StateQueue(d: Disk, w: WriterRef): Queue
    requires w in d.states
  {
    Queue(d.states[w].0, d.states[w].1, map[])
  }

  method LoadStates(d: Disk) returns (queues: Queues)
    ensures queues == map w | w in d.states :: StateQueue(d, w)
  {
    queues := map[];
    var todo := d.states.Keys;
    while todo != {}
      invariant todo <= d.states.Keys
      invariant queues == map w | w in d.states && w !in todo :: StateQueue(d, w)
      decreases |todo|
    {
      var w :| w in todo;
      queues := queues[w := StateQueue(d, w)];
      todo := todo - {w};
    }
  }

  /** The keys of a map in ascending order. */
  ghost predicate Walks(seqs: seq<nat>, keys: set<nat>) {
    && (forall s :: s in seqs <==> s in keys)
    && (forall i, j :: 0 <= i < j < |seqs| ==> seqs[i] < seqs[j])
  }

  lemma GreatestIsLast(seqs: seq<nat>, keys: set<nat>)
    requires Walks(seqs, keys) && seqs != []
    ensures keys != {} && Greatest(keys) == seqs[|seqs| - 1]
  {
    var last := seqs[|seqs| - 1];
    assert last in seqs;
    var m := Greatest(keys);
    var i :| 0 <= i < |seqs| && seqs[i] == m;
  }

  method FoldRows(rows: map<nat, Entry>, seqs: seq<nat>) returns (pending: map<nat, Entry>, last: Option<Digest>)
    requires Walks(seqs, rows.Keys)
    ensures pending == rows
    ensures last == if seqs == [] then None else Some(rows[seqs[|seqs| - 1]].hash)
  {
    pending, last := map[], None;
    for i := 0 to |seqs|
      invariant forall k :: 0 <= k < i ==> seqs[k] in pending
      invariant forall s :: s in pending ==> s in rows && pending[s] == rows[s]
      invariant last == if i == 0 then None else Some(rows[seqs[i - 1]].hash)
    {
      last := Some(rows[seqs[i]].hash);
      pending := pending[seqs[i] := rows[seqs[i]]];
    }
  }

  /** One writer's rows folded into its queue in sequence order; the last hash becomes the head. */
  method LoadOne(queue: Queue, rows: map<nat, Entry>, seqs: seq<nat>) returns (r: Queue)
    requires queue.pending == map[] && Walks(seqs, rows.Keys)
    ensures r == Rebuilt(queue.nextSeq, queue.head, rows)
  {
    var pending, last := FoldRows(rows, seqs);
    RebuiltFrom(queue.nextSeq, queue.head, rows, seqs);
    r := Queue(queue.nextSeq, queue.head, pending);
    if last.Some? {
      r := Queue(Max(queue.nextSeq, seqs[|seqs| - 1] + 1), last.value, pending);
    }
  }

  lemma RebuiltFrom(next: nat, head: Digest, rows: map<nat, Entry>, seqs: seq<nat>)
    requires Walks(seqs, rows.Keys)
    ensures Rebuilt(next, head, rows) ==
            if seqs == [] then Queue(next, head, rows)
            else Queue(Max(next, seqs[|seqs| - 1] + 1), rows[seqs[|seqs| - 1]].hash, rows)
  {
    if seqs == [] {
      assert rows.Keys == {};
      assert rows == map[];
    } else {
      GreatestIsLast(seqs, rows.Keys);
      assert seqs[0] in seqs && seqs[0] in rows;
    }
  }

  function Writers(d: Disk): set<WriterRef> { set k | k in d.rows :: k.0 }

  /** A queue while the load is under way: rebuilt, or waiting for its rows. */
  function LoadingQueue(d: Disk, todo: set<WriterRef>, w: WriterRef): Queue {
    if w in Writers(d) && w !in todo then LoadQueue(d, w) else if w in d.states then StateQueue(d, w) else FRESH
  }

  ghost predicate Loading(d: Disk, queues: Queues, todo: set<WriterRef>) {
    && todo <= Writers(d)
    && (forall w :: w in queues <==> w in d.states || (w in Writers(d) && w !in todo))
    && (forall w :: w in queues ==> queues[w] == LoadingQueue(d, todo, w))
  }

  lemma LoadedOne(d: Disk, queues: Queues, todo: set<WriterRef>, w: WriterRef)
    requires Loading(d, queues, todo) && w in todo
    ensures At(queues, w) == if w in d.states then StateQueue(d, w) else FRESH
    ensures Loading(d, queues[w := LoadQueue(d, w)], todo - {w})
  {
    var queues', todo' := queues[w := LoadQueue(d, w)], todo - {w};
    forall v | v in queues' ensures queues'[v] == LoadingQueue(d, todo', v) {
      LoadingNext(d, todo, w, v);
    }
    assert forall v :: v in queues' <==> v in queues || v == w;
  }

  lemma LoadingNext(d: Disk, todo: set<WriterRef>, w: WriterRef, v: WriterRef)
    requires w in todo && todo <= Writers(d)
    ensures LoadingQueue(d, todo - {w}, v) == if v == w then LoadQueue(d, w) else LoadingQueue(d, todo, v)
  {}

  lemma LoadedWithoutRows(d: Disk, w: WriterRef)
    requires w in d.states && w !in Writers(d)
    ensures LoadQueue(d, w) == StateQueue(d, w)
  {
    assert (set k | k in d.rows && k.0 == w :: k.1) == {} by {
      forall k | k in d.rows ensures k.0 != w {
        assert k.0 in Writers(d);
      }
    }
    assert LoadPending(d, w) == map[];
  }

  lemma LoadedAll(d: Disk, queues: Queues)
    requires Loading(d, queues, {})
    ensures queues == Load(d)
  {
    forall w ensures w in queues <==> w in Load(d) {}
    forall w | w in queues ensures queues[w] == LoadQueue(d, w) {
      if w !in Writers(d) {
        LoadedWithoutRows(d, w);
      }
    }
  }

  /** The load: the queues the tables hold, and a position past every entry in them. */
  method LoadWriterQueues(d: Disk) returns (queues: Queues, next: nat)
    ensures queues == Load(d)
    ensures next == NextPosition(queues)
  {
    queues := LoadStates(d);
    var todo := Writers(d);
    while todo != {}
      invariant Loading(d, queues, todo)
      decreases |todo|
    {
      var w :| w in todo;
      LoadedOne(d, queues, todo, w);
      var rows := LoadPending(d, w);
      var loaded := LoadOne(At(queues, w), rows, Ascending(rows.Keys));
      queues := queues[w := loaded];
      todo := todo - {w};
    }
    LoadedAll(d, queues);
    next := NextPosition(queues);
  }

  // ---- the plan of a carry ----

  method GatherTail(source: WriterRef, pending: map<nat, Entry>, seqs: seq<nat>, before: seq<Carried>) returns (plan: seq<Carried>)
    requires forall s :: s in seqs ==> s in pending
    ensures plan == before + Listed(source, pending, seqs)
  {
    plan := before;
    ghost var listed := Listed(source, pending, seqs);
    for i := 0 to |seqs|
      invariant plan == before + listed[..i]
    {
      plan := plan + [Carried(source, seqs[i], pending[seqs[i]])];
      assert listed[..i + 1] == listed[..i] + [listed[i]];
    }
    assert listed[..|seqs|] == listed;
  }

  lemma Regroup(a: seq<Carried>, b: seq<Carried>, t: seq<Carried>)
    ensures a + (b + t) == (a + b) + t
  {}

  lemma {:induction false} CollectSnoc(q: Queues, dead: seq<WriterRef>, w: WriterRef)
    ensures Collect(q, dead + [w]) == Collect(q, dead) + Tail(q, w)
    decreases |dead|
  {
    if dead == [] {
      assert (dead + [w])[1..] == [];
      Regroup(Tail(q, w), [], []);
    } else {
      assert (dead + [w])[1..] == dead[1..] + [w];
      CollectSnoc(q, dead[1..], w);
      Regroup(Tail(q, dead[0]), Collect(q, dead[1..]), Tail(q, w));
    }
  }

  lemma CollectNext(q: Queues, dead: seq<WriterRef>, i: nat)
    requires i < |dead|
    ensures Collect(q, dead[..i + 1]) == Collect(q, dead[..i]) + Tail(q, dead[i])
  {
    assert dead[..i + 1] == dead[..i] + [dead[i]];
    CollectSnoc(q, dead[..i], dead[i]);
  }

  method GatherAll(writers: Queues, dead: seq<WriterRef>) returns (plan: seq<Carried>)
    ensures plan == Collect(writers, dead)
  {
    plan := [];
    for i := 0 to |dead|
      invariant plan == Collect(writers, dead[..i])
    {
      CollectNext(writers, dead, i);
      if dead[i] in writers {
        plan := GatherTail(dead[i], writers[dead[i]].pending, Ascending(writers[dead[i]].pending.Keys), plan);
      }
    }
    assert dead[..|dead|] == dead;
  }

  /** The dead writers' entries by position. */
  method GatherPlan(writers: Queues, dead: seq<WriterRef>) returns (plan: seq<Carried>)
    ensures plan == Plan(writers, dead)
  {
    plan := GatherAll(writers, dead);
    plan := SortByPosition(plan);
  }

  /** Fresh sequences and chain hashes for the plan, or `None` at the first changeset that does not parse. */
  method HashPlan(c: Chain, t: Queue, plan: seq<Carried>) returns (r: Option<seq<Digest>>)
    ensures match r
            case None => Place(c, t, plan) == None
            case Some(hashes) => |hashes| == |plan| && Linked(c, t, plan, hashes)
  {
    var hashes: seq<Digest> := [];
    var nextSeq, head := t.nextSeq, t.head;
    for i := 0 to |plan|
      invariant |hashes| == i && nextSeq == t.nextSeq + i && head == HeadAt(t, hashes, i)
      invariant Linked(c, t, plan, hashes)
    {
      match c.Hash(head, nextSeq, plan[i].entry.changeset) {
        case None =>
          Unreadable(c, t, plan, hashes);
          return None;
        case Some(h) =>
          LinkedSnoc(c, t, plan, hashes, h);
          hashes, head, nextSeq := hashes + [h], h, nextSeq + 1;
      }
    }
    return Some(hashes);
  }

  lemma LinkedSnoc(c: Chain, t: Queue, plan: seq<Carried>, hashes: seq<Digest>, h: Digest)
    requires Linked(c, t, plan, hashes) && |hashes| < |plan|
    requires c.Hash(HeadAt(t, hashes, |hashes|), t.nextSeq + |hashes|, plan[|hashes|].entry.changeset) == Some(h)
    ensures Linked(c, t, plan, hashes + [h])
  {
    forall k | 0 <= k <= |hashes| ensures LinkedAt(c, t, plan, hashes + [h], k) {
      if k < |hashes| {
        assert LinkedAt(c, t, plan, hashes, k);
      }
    }
  }

  // ---- the one transaction of a carry ----

  method StoreRows(d: Disk, target: WriterRef, t: Queue, plan: seq<Carried>, hashes: seq<Digest>) returns (r: Option<Disk>)
    requires |hashes| == |plan|
    ensures match r
            case None => exists k :: 0 <= k < |plan| && !RowFits(t, plan[k], k)
            case Some(db) =>
              && (forall k :: 0 <= k < |plan| ==> RowFits(t, plan[k], k))
              && db == d.(rows := RowsLaid(d.rows, target, t, plan, hashes, |plan|))
  {
    var db := d;
    for i := 0 to |plan|
      invariant forall k :: 0 <= k < i ==> RowFits(t, plan[k], k)
      invariant db == d.(rows := RowsLaid(d.rows, target, t, plan, hashes, i))
    {
      if !RowFits(t, plan[i], i) {
        return None;
      }
      db := PutRow(db, target, t.nextSeq + i, Rehashed(plan[i], hashes[i]));
    }
    return Some(db);
  }

  method DropDead(d: Disk, dead: seq<WriterRef>) returns (db: Disk)
    ensures db == DropAll(d, dead)
  {
    db := d;
    for i := 0 to |dead|
      invariant DropAll(db, dead[i..]) == DropAll(d, dead)
    {
      assert dead[i..][0] == dead[i] && dead[i..][1..] == dead[i + 1..];
      if dead[i].Device? {
        db := db.(retiredKeys := db.retiredKeys + {dead[i].key});
      }
      db := DropWriter(db, dead[i]);
    }
  }

  /** The tables once the planned rows and the target's state are written. */
  function StoredPlan(c: Chain, d: Disk, target: WriterRef, t: Queue, plan: seq<Carried>): Disk
    requires Place(c, t, plan).Some?
  {
    var rows := PlaceRows(c, d, target, t, plan);
    var next := Place(c, t, plan).value;
    if plan == [] then rows else PutState(rows, target, next.nextSeq, next.head)
  }

  method StorePlan(c: Chain, d: Disk, target: WriterRef, t: Queue, plan: seq<Carried>, hashes: seq<Digest>) returns (r: Option<Disk>)
    requires |hashes| == |plan| && Linked(c, t, plan, hashes)
    ensures r.None? ==> Place(c, t, plan) == None
    ensures r.Some? ==> Place(c, t, plan) == Some(Laid(t, plan, hashes)) && r.value == StoredPlan(c, d, target, t, plan)
  {
    PlaceIsLaid(c, t, plan, hashes);
    var rows := StoreRows(d, target, t, plan, hashes);
    if rows.None? || (plan != [] && !Storable(t.nextSeq + |plan|)) {
      return None;
    }
    PlaceRowsAreLaid(c, d, target, t, plan, hashes);
    if plan == [] {
      return rows;
    }
    return Some(PutState(rows.value, target, t.nextSeq + |plan|, HeadAt(t, hashes, |plan|)));
  }

  // ---- the move in memory ----

  /** Every planned entry still stands, and only the dead have lost any. */
  ghost predicate Moving(q: Queues, writers: Queues, dead: seq<WriterRef>, target: WriterRef, plan: seq<Carried>, k: nat) {
    && writers.Keys == q.Keys - {target}
    && (forall w :: w in writers && w !in dead ==> writers[w] == q[w])
    && (forall i :: k <= i < |plan| ==> Stands(writers, plan[i]))
  }

  function TakeOut(writers: Queues, x: Carried): Queues
    requires x.source in writers
  {
    writers[x.source := writers[x.source].(pending := writers[x.source].pending - {x.originalSeq})]
  }

  lemma StillMoving(q: Queues, writers: Queues, dead: seq<WriterRef>, target: WriterRef, plan: seq<Carried>, k: nat)
    requires Moving(q, writers, dead, target, plan, k) && k < |plan| && PositionsAscend(plan) && plan[k].source in dead
    ensures Stands(writers, plan[k]) && Moving(q, TakeOut(writers, plan[k]), dead, target, plan, k + 1)
  {
    var x := plan[k];
    assert Stands(writers, x);
    forall i | k + 1 <= i < |plan| ensures Stands(TakeOut(writers, x), plan[i]) {
      assert Stands(writers, plan[i]) && x.entry.position < plan[i].entry.position;
    }
  }

  method MoveEntries(q: Queues, dead: seq<WriterRef>, target: WriterRef, plan: seq<Carried>, hashes: seq<Digest>)
    returns (writers: Queues)
    requires IsPlan(q, dead, plan) && |hashes| == |plan| && (target !in dead || plan == [])
    ensures Without(writers, dead) == Without(if plan == [] then q else q[target := Laid(At(q, target), plan, hashes)], dead)
  {
    writers := q;
    if plan != [] {
      writers := q - {target};
      var t := At(q, target);
      var pending := t.pending;
      forall i | 0 <= i < |plan| ensures Stands(writers, plan[i]) {
        assert plan[i] in plan;
      }
      for k := 0 to |plan|
        invariant Moving(q, writers, dead, target, plan, k)
        invariant pending == PendingLaid(t, plan, hashes, k)
      {
        assert plan[k] in plan;
        StillMoving(q, writers, dead, target, plan, k);
        var x := plan[k];
        var entry := writers[x.source].pending[x.originalSeq];
        writers := TakeOut(writers, x);
        pending := pending[t.nextSeq + k := Rehashed(Carried(x.source, x.originalSeq, entry), hashes[k])];
      }
      writers := writers[target := Queue(t.nextSeq + |plan|, HeadAt(t, hashes, |plan|), pending)];
    }
  }

  method ForgetDead(q: Queues, retired: set<Digest>, dead: seq<WriterRef>) returns (writers: Queues, keys: set<Digest>)
    ensures writers == Without(q, dead) && keys == retired + KeysOf(dead)
  {
    writers, keys := q, retired;
    for i := 0 to |dead|
      invariant writers == Without(q, dead[..i])
      invariant keys == retired + KeysOf(dead[..i])
    {
      assert dead[..i + 1] == dead[..i] + [dead[i]];
      writers := writers - {dead[i]};
      if dead[i].Device? {
        keys := keys + {dead[i].key};
      }
    }
    assert dead[..|dead|] == dead;
  }

  // ---- the steps, part by part ----

  lemma AppendParts(c: Chain, r: Replica, w: WriterRef, changeset: Bytes, origin: Option<Provenance>, hash: Digest, t: Queue, e: Entry)
    requires c.Hash(At(r.queues, w).head, At(r.queues, w).nextSeq, changeset) == Some(hash)
    requires Storable(At(r.queues, w).nextSeq + 1) && Storable(r.nextPosition) && StorableOrigin(origin)
    requires e == Entry(changeset, hash, r.nextPosition, origin)
    requires t == Queue(At(r.queues, w).nextSeq + 1, hash, At(r.queues, w).pending[At(r.queues, w).nextSeq := e])
    ensures Append(c, r, w, changeset, origin).Some?
    ensures Append(c, r, w, changeset, origin).value ==
            Replica(r.queues[w := t], r.nextPosition + 1, r.bound, r.retired, r.connected,
                    PutRow(PutState(r.disk, w, t.nextSeq, hash), w, At(r.queues, w).nextSeq, e),
                    Append(c, r, w, changeset, origin).value.history)
  {
    assert Extend(c, At(r.queues, w), changeset, r.nextPosition, origin) == Some(t);
  }

  lemma AppendRefused(c: Chain, r: Replica, w: WriterRef, changeset: Bytes, origin: Option<Provenance>)
    requires
      || c.Hash(At(r.queues, w).head, At(r.queues, w).nextSeq, changeset).None?
      || !(Storable(At(r.queues, w).nextSeq + 1) && Storable(r.nextPosition) && StorableOrigin(origin))
    ensures Append(c, r, w, changeset, origin) == None
  {}

  lemma CarryRefused(c: Chain, r: Replica, dead: seq<WriterRef>, target: WriterRef)
    requires Place(c, At(r.queues, target), Plan(r.queues, dead)) == None
    ensures CarryTo(c, r, dead, target) == None
  {}

  lemma CarryParts(c: Chain, r: Replica, dead: seq<WriterRef>, target: WriterRef, plan: seq<Carried>, t: Queue, q: Queues, d: Disk)
    requires plan == Plan(r.queues, dead) && Place(c, At(r.queues, target), plan) == Some(t)
    requires q == Without(if plan == [] then r.queues else r.queues[target := t], dead)
    requires d == DropAll(StoredPlan(c, r.disk, target, At(r.queues, target), plan), dead)
    ensures CarryTo(c, r, dead, target) ==
            Some(Replica(q, r.nextPosition, r.bound, r.retired + KeysOf(dead), r.connected, d,
                         CarriedHistory(c, r.queues, r.history, dead, target, plan)))
  {}

  lemma IssueParts(r: Replica, n: U64, t: Queue, moved: Option<Disk>)
    requires n != 0 && t == At(r.queues, UNISSUED)
    requires moved == if UNISSUED in r.queues then Rekey(r.disk, UNISSUED, Number(n)) else Some(r.disk)
    ensures moved.None? ==> Issue(r, n) == None
    ensures moved.Some? ==>
              && Issue(r, n).Some?
              && Issue(r, n).value == r.(queues := (r.queues - {UNISSUED})[Number(n) := t],
                                         disk := PutState(moved.value, Number(n), t.nextSeq, t.head),
                                         history := Issue(r, n).value.history)
  {
    assert (r.queues - {UNISSUED})[Number(n) := t] == r.queues[Number(n) := t] - {UNISSUED};
  }

  /** The unissued queue re-keyed in the tables, then in memory. `None` on a storage clash. */
  method IssueAll(writers: Queues, disk: Disk, number: U64, ghost r: Replica) returns (next: Option<(Queues, Disk)>)
    requires number != 0 && r.queues == writers && r.disk == disk
    ensures next.Some? <==> Issue(r, number).Some?
    ensures next.Some? ==>
              Issue(r, number).value ==
              Replica(next.value.0, r.nextPosition, r.bound, r.retired, r.connected, next.value.1, Issue(r, number).value.history)
  {
    var writer := Number(number);
    var queue := if UNISSUED in writers then writers[UNISSUED] else FRESH;
    var moved := if UNISSUED in writers then Rekey(disk, UNISSUED, writer) else Some(disk);
    IssueParts(r, number, queue, moved);
    if moved.None? {
      return None;
    }
    var kept := writers - {UNISSUED};
    return Some((kept[writer := queue], PutState(moved.value, writer, queue.nextSeq, queue.head)));
  }

  lemma {:induction false} AppendAllNext(c: Chain, r: Replica, w: WriterRef, archive: seq<Archived>, i: nat)
    requires i < |archive|
    ensures var next := Append(c, r, w, archive[i].changeset, ArchivedOrigin(archive[i]));
            AppendAll(c, r, w, archive[i..]) == if next.Some? then AppendAll(c, next.value, w, archive[i + 1..]) else r
  {
    assert archive[i..][0] == archive[i] && archive[i..][1..] == archive[i + 1..];
  }

  /** How a carry ends. A panic comes after the transaction, with the target already out of memory. */
  datatype Outcome =
    | Denied
    | Done(writers: Queues, retired: set<Digest>, disk: Disk)
    | Panicked(writers: Queues, disk: Disk)

  lemma SelfCarryParts(c: Chain, r: Replica, target: WriterRef, plan: seq<Carried>, t: Queue, d: Disk)
    requires plan == Plan(r.queues, [target]) && Place(c, At(r.queues, target), plan) == Some(t)
    requires d == DropAll(StoredPlan(c, r.disk, target, At(r.queues, target), plan), [target])
    ensures CarryTo(c, r, [target], target) ==
            Some(Replica(r.queues - {target}, r.nextPosition, r.bound, r.retired + KeysOf([target]), r.connected, d,
                         CarriedHistory(c, r.queues, r.history, [target], target, plan)))
  {
    var q := if plan == [] then r.queues else r.queues[target := t];
    CarryParts(c, r, [target], target, plan, t, Without(q, [target]), d);
    DroppedAnyway(r.queues, target, t);
  }

  lemma DroppedAnyway(q: Queues, w: WriterRef, t: Queue)
    ensures Without(q[w := t], [w]) == q - {w} && Without(q, [w]) == q - {w}
  {}

  /** The whole carry: plan, hashes, transaction, then memory. */
  method CarryAll(c: Chain, writers: Queues, retired: set<Digest>, disk: Disk, dead: seq<WriterRef>, target: WriterRef, ghost r: Replica)
    returns (outcome: Outcome)
    requires r.queues == writers && r.retired == retired && r.disk == disk
    requires OneOrder(writers) && NoRepeats(dead) && (target !in dead || dead == [target])
    ensures outcome.Denied? <==> CarryTo(c, r, dead, target).None?
    ensures outcome.Panicked? <==> target in dead && Plan(writers, dead) != [] && CarryTo(c, r, dead, target).Some?
    ensures !outcome.Denied? ==>
              CarryTo(c, r, dead, target).value ==
              Replica(outcome.writers, r.nextPosition, r.bound, if outcome.Done? then outcome.retired else retired + KeysOf(dead),
                      r.connected, outcome.disk, CarryTo(c, r, dead, target).value.history)
  {
    var plan := GatherPlan(writers, dead);
    var t := At(writers, target);
    var hashes := HashPlan(c, t, plan);
    if hashes.None? {
      CarryRefused(c, r, dead, target);
      return Denied;
    }
    var stored := StorePlan(c, disk, target, t, plan, hashes.value);
    if stored.None? {
      CarryRefused(c, r, dead, target);
      return Denied;
    }
    var db := DropDead(stored.value, dead);
    if target in dead && plan != [] {
      SelfCarryParts(c, r, target, plan, Laid(t, plan, hashes.value), db);
      return Panicked(writers - {target}, db);
    }
    PlanIsTheTails(writers, dead);
    var moved := MoveEntries(writers, dead, target, plan, hashes.value);
    var kept, keys := ForgetDead(moved, retired, dead);
    CarryParts(c, r, dead, target, plan, Laid(t, plan, hashes.value), kept, db);
    return Done(kept, keys, db);
  }

  // ---- the order of the dead does not show ----

  ghost predicate SameWriters(dead: seq<WriterRef>, other: seq<WriterRef>) { forall w :: w in dead <==> w in other }

  function LeftStates(states: States, dead: seq<WriterRef>): States { map w | w in states && w !in dead :: states[w] }

  function LeftRows(rows: Rows, dead: seq<WriterRef>): Rows { map k | k in rows && k.0 !in dead :: rows[k] }

  lemma LeftFirst(d: Disk, dead: seq<WriterRef>)
    requires dead != []
    ensures LeftStates(d.states, dead) == LeftStates(DropWriter(d, dead[0]).states, dead[1..])
    ensures LeftRows(d.rows, dead) == LeftRows(DropWriter(d, dead[0]).rows, dead[1..])
    ensures KeysOf(dead) == (if dead[0].Device? then {dead[0].key} else {}) + KeysOf(dead[1..])
  {
    assert dead == [dead[0]] + dead[1..];
  }

  lemma {:induction false} DropAllIs(d: Disk, dead: seq<WriterRef>)
    ensures DropAll(d, dead) == Disk(LeftStates(d.states, dead), LeftRows(d.rows, dead), d.retires, d.retiredKeys + KeysOf(dead))
    decreases |dead|
  {
    if dead != [] {
      var kept := if dead[0].Device? then d.(retiredKeys := d.retiredKeys + {dead[0].key}) else d;
      DropAllIs(DropWriter(kept, dead[0]), dead[1..]);
      LeftFirst(kept, dead);
    }
  }

  lemma SamePlan(q: Queues, dead: seq<WriterRef>, other: seq<WriterRef>)
    requires OneOrder(q) && NoRepeats(dead) && NoRepeats(other) && SameWriters(dead, other)
    ensures Plan(q, dead) == Plan(q, other)
  {
    PlanIsTheTails(q, dead);
    PlanIsTheTails(q, other);
    AscendingListsAgree(Plan(q, dead), Plan(q, other));
  }

  lemma SameDrop(d: Disk, h: History, dead: seq<WriterRef>, other: seq<WriterRef>)
    requires SameWriters(dead, other)
    ensures DropAll(d, dead) == DropAll(d, other) && KeysOf(dead) == KeysOf(other) && WithoutLogs(h, dead) == WithoutLogs(h, other)
  {
    DropAllIs(d, dead);
    DropAllIs(d, other);
  }

  lemma CarryTakesASet(c: Chain, r: Replica, dead: seq<WriterRef>, other: seq<WriterRef>, target: WriterRef)
    requires OneOrder(r.queues) && NoRepeats(dead) && NoRepeats(other) && SameWriters(dead, other)
    ensures CarryTo(c, r, dead, target) == CarryTo(c, r, other, target)
  {
    SamePlan(r.queues, dead, other);
    var plan := Plan(r.queues, dead);
    if Place(c, At(r.queues, target), plan).Some? {
      var t := Place(c, At(r.queues, target), plan).value;
      var q := if plan == [] then r.queues else r.queues[target := t];
      var d := StoredPlan(c, r.disk, target, At(r.queues, target), plan);
      CarryParts(c, r, dead, target, plan, t, Without(q, dead), DropAll(d, dead));
      CarryParts(c, r, other, target, plan, t, Without(q, other), DropAll(d, other));
      SameDrop(d, r.history, dead, other);
      SameLeft(q, dead, other);
      SameHistory(c, r.queues, r.history, dead, other, target, plan);
    }
  }

  lemma SameLeft(q: Queues, dead: seq<WriterRef>, other: seq<WriterRef>)
    requires SameWriters(dead, other)
    ensures Without(q, dead) == Without(q, other)
  {}

  lemma SameHistory(c: Chain, q: Queues, h: History, dead: seq<WriterRef>, other: seq<WriterRef>, target: WriterRef, plan: seq<Carried>)
    requires SameWriters(dead, other) && WithoutLogs(h, dead) == WithoutLogs(h, other) && Place(c, At(q, target), plan).Some?
    ensures CarriedHistory(c, q, h, dead, target, plan) == CarriedHistory(c, q, h, other, target, plan)
  {}

  function HeldDevices(q: Queues): set<WriterRef> { set w | w in q && w.Device? }

  /** The writers a revocation excludes, in some order. */
  ghost predicate ListsExcluded(q: Queues, cert: Option<Digest>, dead: seq<WriterRef>) {
    && NoRepeats(dead)
    && (if HeldDevices(q) == {} && cert.Some? then dead == [Device(cert.value)] else forall w :: w in dead <==> w in HeldDevices(q))
  }

  lemma EmptyListing(s: set<WriterRef>)
    ensures Listing(s) == [] <==> s == {}
  {
    if s != {} {
      var w :| w in s;
      assert w in Listing(s);
    }
  }

  lemma ExcludedAs(c: Chain, r: Replica, cert: Option<Digest>, dead: seq<WriterRef>)
    requires OneOrder(r.queues) && ListsExcluded(r.queues, cert, dead)
    ensures NumberOrUnissued(r.queues) !in dead
    ensures Exclude(c, r, cert) == ExcludeTo(c, r, dead, NumberOrUnissued(r.queues))
  {
    EmptyListing(HeldDevices(r.queues));
    assert forall w :: w in dead ==> w.Device?;
    CarryTakesASet(c, r, dead, Excluded(r, cert), NumberOrUnissued(r.queues));
  }

  lemma RaisedOrder(r: Replica, w: WriterRef, frontier: nat)
    requires OneOrder(r.queues)
    ensures OneOrder(Raise(Ensure(r, w), w, frontier).queues)
  {
    var q := Raise(Ensure(r, w), w, frontier).queues;
    forall v, s: nat | Holds(q, v, s) ensures Holds(r.queues, v, s) && q[v].pending[s] == r.queues[v].pending[s] {}
  }

  /** The bind's one state write is the fresh row raised at once. */
  lemma BindState(r: Replica, w: WriterRef, frontier: nat, t: Queue, raised: nat)
    requires t == At(r.queues, w) && raised == Raised(t, frontier) && Storable(raised)
    ensures Raise(Ensure(r, w), w, frontier) ==
            r.(queues := r.queues[w := t.(nextSeq := raised)], disk := PutState(r.disk, w, raised, t.head),
               history := Ensure(r, w).history)
  {
    var r1 := Ensure(r, w);
    assert r1.queues[w] == t;
    assert r1.queues[w := t.(nextSeq := raised)] == r.queues[w := t.(nextSeq := raised)];
    assert r1.disk.states[w := (raised, t.head)] == r.disk.states[w := (raised, t.head)];
    assert raised == t.nextSeq ==> t.(nextSeq := raised) == t;
  }

  /** An issued number is one the server never issued before. */
  ghost predicate FreshGrant(request: Request, grant: Option<Grant>, issued: set<U64>) {
    request.AskIssue? && grant.Some? ==> grant.value.number !in issued
  }

  method ListExcluded(writers: Queues, cert: Option<Digest>) returns (dead: seq<WriterRef>)
    ensures ListsExcluded(writers, cert, dead)
  {
    dead := ListWriters(HeldDevices(writers));
    assert dead != [] ==> dead[0] in HeldDevices(writers);
    if dead == [] && cert.Some? {
      dead := [Device(cert.value)];
    }
  }

  method ListWriters(writers: set<WriterRef>) returns (list: seq<WriterRef>)
    ensures NoRepeats(list) && forall w :: w in list <==> w in writers
  {
    list := [];
    var todo := writers;
    while todo != {}
      invariant NoRepeats(list) && todo <= writers && forall w :: w in list <==> w in writers && w !in todo
      decreases |todo|
    {
      var w :| w in todo;
      list := list + [w];
      todo := todo - {w};
    }
  }

  // ---- the connection ----

  /** `history` is no part of the client: it is what the claims over runs are stated of. */
  class ConnettoConnection {
    const chain: Chain
    var writers: Queues
    var nextPosition: nat
    var bound: Option<WriterRef>
    var retired: set<Digest>
    var connected: bool
    var disk: Disk
    ghost var history: History

    ghost function State(): Replica
      reads this
    {
      Replica(writers, nextPosition, bound, retired, connected, disk, history)
    }

    /** What every run keeps of the queues, the tables and the history. */
    ghost predicate Valid()
      reads this
    {
      Inv(chain, State())
    }

    /** A fresh process over existing tables. */
    constructor Open(c: Chain, before: Disk, ghost past: Replica)
      requires past.disk == before && Inv(c, past)
      ensures chain == c && State() == Restart(past) && Valid()
    {
      RestartInv(c, past);
      chain := c;
      var queues, next := LoadWriterQueues(before);
      writers, nextPosition := queues, next;
      bound, retired, connected, disk := None, before.retiredKeys, false, before;
      history := Restart(past).history;
    }

    method AppendEntry(writer: WriterRef, changeset: Bytes, provenance: Option<Provenance>) returns (r: Option<nat>)
      modifies this
      ensures r == if Append(chain, old(State()), writer, changeset, provenance).None? then None else Some(At(old(writers), writer).nextSeq)
      ensures State() == if r.None? then old(State()) else Append(chain, old(State()), writer, changeset, provenance).value
    {
      var position := nextPosition;
      var queue := if writer in writers then writers[writer] else FRESH;
      var seqNo := queue.nextSeq;
      var linked := chain.Hash(queue.head, seqNo, changeset);
      if linked.None? || !(Storable(seqNo + 1) && Storable(position) && StorableOrigin(provenance)) {
        AppendRefused(chain, State(), writer, changeset, provenance);
        return None;
      }
      var hash := linked.value;
      var entry := Entry(changeset, hash, position, provenance);
      queue := Queue(seqNo + 1, hash, queue.pending[seqNo := entry]);
      AppendParts(chain, State(), writer, changeset, provenance, hash, queue, entry);
      history := Append(chain, State(), writer, changeset, provenance).value.history;
      disk := PutRow(PutState(disk, writer, seqNo + 1, hash), writer, seqNo, entry);
      writers := writers[writer := queue];
      nextPosition := position + 1;
      return Some(seqNo);
    }

    /** A local write: queued under the writer it is chosen for, and sent at once when that one is bound. */
    method PushWrite(cert: Option<Digest>, changeset: Bytes) returns (sent: Option<(WriterRef, nat)>)
      requires Valid()
      modifies this
      ensures State() == Pushed(chain, old(State()), cert, changeset) && Good(chain, old(State()), State())
      ensures Sent(chain, old(State()), Push(cert, changeset)) == if sent.Some? then {sent.value} else {}
    {
      GoodPush(chain, State(), cert, changeset);
      SentByPush(chain, State(), cert, changeset);
      var writer := ChooseWriter(State0(), cert);
      var r := AppendEntry(writer, changeset, None);
      sent := if r.Some? && connected && bound == Some(writer) then Some((writer, r.value)) else None;
    }

    /** Refused, a carry changes nothing. A panic leaves the tables committed, and memory without the target. */
    method CarryWriters(dead: seq<WriterRef>, target: WriterRef) returns (ok: bool, panicked: bool)
      requires OneOrder(writers) && NoRepeats(dead) && (target !in dead || dead == [target])
      modifies this
      ensures ok || panicked <==> CarryTo(chain, old(State()), dead, target).Some?
      ensures panicked <==> target in dead && Plan(old(writers), dead) != [] && CarryTo(chain, old(State()), dead, target).Some?
      ensures !(ok && panicked)
      ensures ok ==> State() == CarryTo(chain, old(State()), dead, target).value
      ensures panicked ==> State() == CarryTo(chain, old(State()), dead, target).value.(retired := old(retired))
      ensures !ok && !panicked ==> State() == old(State())
    {
      var r := CarryAll(chain, writers, retired, disk, dead, target, State());
      ok, panicked := r.Done?, r.Panicked?;
      if !r.Denied? {
        history := CarryTo(chain, State(), dead, target).value.history;
        writers, disk := r.writers, r.disk;
      }
      if ok {
        retired := r.retired;
      }
    }

    /** The number a handshake reports beside its writer. */
    method ReportSettled(writer: WriterRef) returns (n: nat)
      ensures n == SettledThrough(writers, writer)
    {
      if writer !in writers {
        return 0;
      }
      var queue := writers[writer];
      if queue.pending == map[] {
        return Monus(queue.nextSeq, 1);
      }
      return Monus(Least(queue.pending.Keys), 1);
    }

    /** A fresh number granted to an issue: the unissued queue is re-keyed under it. */
    method TakeNumber(number: U64) returns (ok: bool)
      requires number != 0
      modifies this
      ensures ok <==> Issue(old(State()), number).Some?
      ensures State() == if ok then Issue(old(State()), number).value else old(State())
    {
      var r := IssueAll(writers, disk, number, State());
      ok := r.Some?;
      if ok {
        history := Issue(State(), number).value.history;
        writers, disk := r.value.0, r.value.1;
      }
    }

    method EnsureQueue(writer: WriterRef)
      modifies this
      ensures State() == Ensure(old(State()), writer)
    {
      var queue := if writer in writers then writers[writer] else FRESH;
      history := Ensure(old(State()), writer).history;
      writers := writers[writer := queue];
      disk := PutState(disk, writer, queue.nextSeq, queue.head);
    }

    /** Takes the grant of an acknowledged handshake, and answers the writer it binds, if any. */
    method ApplyWriterGrant(request: Request, grant: Option<Grant>, cert: Option<Digest>, ghost standing: bool)
      returns (r: Option<Option<WriterRef>>)
      requires Valid()
      modifies this
      ensures match Granted(chain, old(State()), request, grant, cert)
              case None => r == None && State() == old(State())
              case Some((next, writer)) => r == Some(writer) && State() == next
      ensures request == Handshake(old(State()), cert, standing) && FreshGrant(request, grant, old(history).issued) ==>
                Good(chain, old(State()), State())
    {
      assert OneOrder(writers) && OneNumber(writers) by {
        InvHolds(chain, State());
      }
      OnwardStays(State());
      if request == Handshake(State(), cert, standing) && FreshGrant(request, grant, history.issued)
         && Granted(chain, State(), request, grant, cert).Some?
      {
        GoodGranted(chain, State(), request, grant, cert, standing);
      }
      match request
      case AskIssue =>
        if grant.None? || grant.value.number == 0 || grant.value.frontier != 0 {
          return None;
        }
        var ok := TakeNumber(grant.value.number);
        return if ok then Some(Some(Number(grant.value.number))) else None;
      case AskNumber(n) =>
        if grant.None? || grant.value.number != n {
          return None;
        }
        if Number(n) !in writers {
          EnsureQueue(Number(n));
        }
        return Some(Some(Number(n)));
      case AskDevice =>
        if grant.Some? {
          return None;
        }
        if cert.Some? {
          var ok, _ := CarryWriters([UNISSUED], Device(cert.value));
          if !ok {
            return None;
          }
        }
        return Some(None);
    }

    /** The handshake's frontier raises the writer's next sequence, in memory first. */
    method RaiseFrontier(writer: WriterRef, frontier: nat)
      requires Valid()
      modifies this
      ensures State() == Raise(old(State()), writer, frontier)
      ensures Storable(frontier + 1) ==> Good(chain, old(State()), State())
    {
      if Storable(frontier + 1) {
        GoodRaise(chain, State(), writer, frontier);
      }
      if writer in writers {
        var queue := writers[writer];
        var raised := Max(Min(frontier + 1, U64_MAX), queue.nextSeq);
        if raised != queue.nextSeq {
          queue := queue.(nextSeq := raised);
          writers := writers[writer := queue];
          if Storable(raised) {
            disk := PutState(disk, writer, raised, queue.head);
          }
        }
      }
    }

    /** The bound writer's entries in sequence order, as they go on the wire. */
    method ReplayPending() returns (sent: seq<(WriterRef, nat)>)
      ensures forall m :: m in sent <==> m in BoundTail(State())
      ensures forall i, j :: 0 <= i < j < |sent| ==> sent[i].1 < sent[j].1
    {
      sent := [];
      if !connected || bound.None? || bound.value !in writers {
        return;
      }
      var seqs := Ascending(writers[bound.value].pending.Keys);
      for i := 0 to |seqs|
        invariant |sent| == i && forall k :: 0 <= k < i ==> sent[k] == (bound.value, seqs[k])
      {
        sent := sent + [(bound.value, seqs[i])];
      }
      forall m ensures m in sent <==> m in BoundTail(State()) {
        if m in BoundTail(State()) {
          assert m.1 in seqs;
          var k :| 0 <= k < |seqs| && seqs[k] == m.1;
          assert sent[k] == m;
        }
        if m in sent {
          var k :| 0 <= k < |sent| && sent[k] == m;
          assert seqs[k] in seqs;
        }
      }
    }

    /** The bound writer's entry leaves memory and disk together. */
    method TakeOutEntry(writer: WriterRef, seqNo: nat)
      modifies this
      ensures State() == Remove(old(State()), writer, seqNo)
    {
      if writer in writers && seqNo in writers[writer].pending {
        writers := writers[writer := writers[writer].(pending := writers[writer].pending - {seqNo})];
        disk := DropRow(disk, writer, seqNo);
      }
    }

    /** `held` says whether a bind is waiting behind the number. */
    method FinishNumberTail(held: bool)
      modifies this
      ensures State() == FinishTail(old(State()), held)
    {
      if bound.None? || !bound.value.Number? || bound.value !in writers {
        return;
      }
      if writers[bound.value].pending != map[] {
        return;
      }
      if held {
        disk := disk.(retires := disk.retires + {bound.value});
        disk := DropWriter(disk, bound.value);
        history := WithoutLogs(history, [bound.value]);
        writers := writers - {bound.value};
      }
    }

    /** An answer that settles an entry, applied or refused. */
    method MutationSettled(seqNo: nat, held: bool)
      requires Valid()
      modifies this
      ensures State() == SettleBound(old(State()), seqNo, held)
      ensures Good(chain, old(State()), State())
    {
      GoodSettle(chain, State(), seqNo, held);
      if bound.Some? {
        TakeOutEntry(bound.value, seqNo);
      }
      FinishNumberTail(held);
    }

    /** One dead writer is emptied into the live one. A panic ends the process, and the tables are what the next open finds. */
    method CarryToLiveWriter(dead: WriterRef) returns (panicked: bool)
      requires Valid()
      modifies this
      ensures CarryToLive(chain, old(State()), dead) == if panicked then Restart(State()) else State()
      ensures Good(chain, old(State()), if panicked then Restart(State()) else State())
    {
      assert OneOrder(writers) && OneNumber(writers) by {
        InvHolds(chain, State());
      }
      GoodCarryToLive(chain, State(), dead);
      var target := TailTarget(writers, dead);
      WriterConservation.PlanOfTail(writers, dead);
      var _, stopped := CarryWriters([dead], target);
      panicked := stopped;
    }

    /** Every device key held is retired, and what was queued under it goes to the number. */
    method ExcludeDeviceWriters(cert: Option<Digest>)
      requires Valid()
      modifies this
      ensures State() == Exclude(chain, old(State()), cert) && Good(chain, old(State()), State())
    {
      assert OneOrder(writers) && OneNumber(writers) by {
        InvHolds(chain, State());
      }
      GoodExclude(chain, State(), cert);
      var dead := ListExcluded(writers, cert);
      ExcludedAs(chain, State(), cert, dead);
      ExcludeListed(dead, NumberOrUnissued(writers));
    }

    method ExcludeListed(dead: seq<WriterRef>, target: WriterRef)
      requires OneOrder(writers) && NoRepeats(dead) && target !in dead
      modifies this
      ensures State() == ExcludeTo(chain, old(State()), dead, target)
    {
      var ok, _ := CarryWriters(dead, target);
      if ok && bound.Some? && bound.value.Device? {
        bound := Some(target);
      }
    }

    /** A bind went through: the connection writes as the device, and what waited under numbers joins its queue. */
    method AnswerBind(key: Digest, frontier: nat)
      requires Valid()
      modifies this
      ensures State() == BindTo(chain, old(State()), key, frontier)
      ensures Storable(frontier + 1) ==> Good(chain, old(State()), State())
    {
      assert OneOrder(writers) && OneNumber(writers) by {
        InvHolds(chain, State());
      }
      if Storable(frontier + 1) {
        GoodBindTo(chain, State(), key, frontier);
      }
      Rebind(key, frontier);
    }

    method Rebind(key: Digest, frontier: nat)
      requires OneOrder(writers)
      modifies this
      ensures State() == BindTo(chain, old(State()), key, frontier)
    {
      if key in retired {
        return;
      }
      var queue := if Device(key) in writers then writers[Device(key)] else FRESH;
      var raised := Max(Min(frontier + 1, U64_MAX), queue.nextSeq);
      if !Storable(raised) {
        writers := writers[Device(key) := queue.(nextSeq := raised)];
        return;
      }
      BindState(State(), Device(key), frontier, queue, raised);
      history := Ensure(State(), Device(key)).history;
      writers := writers[Device(key) := queue.(nextSeq := raised)];
      disk := PutState(disk, Device(key), raised, queue.head);
      bound := Some(Device(key));
      ghost var before := State();
      RaisedOrder(old(State()), Device(key), frontier);
      var stale := ListWriters(set w | w in writers && w.Number?);
      CarryTakesASet(chain, before, stale, Numbers(writers), Device(key));
      var _, _ := CarryWriters(stale, Device(key));
    }

    /** An archive's entries become pushes of the live writer, its writers being owed a retirement first. */
    method RestoreArchivedWrites(cert: Option<Digest>, archive: seq<Archived>)
      requires Valid()
      modifies this
      ensures State() == Restored(chain, old(State()), cert, archive) && Good(chain, old(State()), State())
    {
      assert OneOrder(writers) && OneNumber(writers) by {
        InvHolds(chain, State());
      }
      GoodRestored(chain, State(), cert, archive);
      Requeue(cert, archive);
    }

    method Requeue(cert: Option<Digest>, archive: seq<Archived>)
      requires OneOrder(writers) && OneNumber(writers)
      modifies this
      ensures State() == Restored(chain, old(State()), cert, archive)
    {
      if archive == [] {
        return;
      }
      var target := ChooseWriter(State0(), cert);
      disk := disk.(retires := disk.retires + Retirable(archive));
      if target in Retirable(archive) {
        var live := TailTarget(writers, target);
        TailTargetOwns(writers, retired, target);
        var ok, _ := CarryWriters([target], live);
        if !ok {
          return;
        }
        target := live;
      }
      AppendArchive(target, archive);
    }

    /** The plain part of the state, as the selection functions read it. */
    function State0(): Replica
      reads this
    {
      Replica(writers, nextPosition, bound, retired, connected, disk, History(map[], map[], {}, {}))
    }

    method AppendArchive(target: WriterRef, archive: seq<Archived>)
      modifies this
      ensures State() == AppendAll(chain, old(State()), target, archive)
    {
      ghost var all := AppendAll(chain, State(), target, archive);
      assert archive[0..] == archive;
      for i := 0 to |archive|
        invariant AppendAll(chain, State(), target, archive[i..]) == all
      {
        var a := archive[i];
        AppendAllNext(chain, State(), target, archive, i);
        var provenance :=
          if a.provenance.Some? then a.provenance
          else if IsReal(a.writer) then Some(Provenance(a.writer, a.seqNo))
          else None;
        var r := AppendEntry(target, a.changeset, provenance);
        if r.None? {
          return;
        }
      }
    }
  }
}
