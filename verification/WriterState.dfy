/**
 The replica's writer state, memory beside disk, the operations that change it, and
 the invariant every one of them keeps. The history records what the claims over whole
 runs are about: what each writer appended, which changeset each (writer, sequence)
 pair ever named, and which numbers were issued.
 */
module WriterState {
  import opened Common
  import opened WriterNames
  import opened WriterQueues
  import opened WriterDisk
  import opened WriterCarry

  type Logs = map<WriterRef, seq<Logged>>
  type Names = map<(WriterRef, nat), Bytes>

  /** `astray` are the writers whose head a restart has moved off their chain. */
  datatype History = History(
    logs: Logs, named: Names, issued: set<U64>, astray: set<WriterRef>)

  datatype Replica = Replica(
    queues: Queues, nextPosition: nat, bound: Option<WriterRef>, retired: set<Digest>,
    connected: bool, disk: Disk, history: History)

  const EMPTY := Replica(map[], 1, None, {}, false, BLANK, History(map[], map[], {}, {}))

  function LogAt(logs: Logs, w: WriterRef): seq<Logged> { if w in logs then logs[w] else [] }

  /** The names a queue's pending entries stand under. */
  function NamesOf(w: WriterRef, t: Queue): (m: Names)
    ensures forall k :: k in m <==> IsReal(w) && k.0 == w && k.1 in t.pending
    ensures forall k :: k in m ==> m[k] == t.pending[k.1].changeset
  {
    if IsReal(w) then map s | s in t.pending :: (w, s) := t.pending[s].changeset else map[]
  }

  /** The last sequence below every pending one. */
  function SettledThrough(q: Queues, w: WriterRef): nat {
    if w !in q then 0
    else if q[w].pending == map[] then Monus(q[w].nextSeq, 1)
    else Monus(Least(q[w].pending.Keys), 1)
  }

  // ---- the operations ----

  function Append(c: Chain, r: Replica, w: WriterRef, changeset: Bytes, origin: Option<Provenance>): Option<Replica> {
    var t := At(r.queues, w);
    match Extend(c, t, changeset, r.nextPosition, origin)
    case None => None
    case Some(next) =>
      Some(r.(queues := r.queues[w := next],
              nextPosition := r.nextPosition + 1,
              disk := PutRow(PutState(r.disk, w, next.nextSeq, next.head), w, t.nextSeq, next.pending[t.nextSeq]),
              history := r.history.(
                logs := r.history.logs[w := LogAt(r.history.logs, w) + [LogOf(next, t.nextSeq)]],
                named := r.history.named + NamesOf(w, next))))
  }

  function CarryTo(c: Chain, r: Replica, dead: seq<WriterRef>, target: WriterRef): Option<Replica> {
    match Carry(c, r.queues, dead, target)
    case None => None
    case Some(q) =>
      Some(r.(queues := q,
              retired := r.retired + KeysOf(dead),
              disk := CarryDisk(c, r.disk, r.queues, dead, target),
              history := CarriedHistory(c, r.queues, r.history, dead, target, Plan(r.queues, dead))))
  }

  function WithoutLogs(h: History, dead: seq<WriterRef>): History {
    h.(logs := map w | w in h.logs && w !in dead :: h.logs[w], astray := set w | w in h.astray && w !in dead)
  }

  /** The history after `w`'s queue became `t`, whose log is `log`. */
  function Recorded(h: History, w: WriterRef, t: Queue, log: seq<Logged>): History {
    h.(logs := h.logs[w := log], named := h.named + NamesOf(w, t))
  }

  function CarriedHistory(c: Chain, q: Queues, h: History, dead: seq<WriterRef>, target: WriterRef, plan: seq<Carried>): History
    requires Place(c, At(q, target), plan).Some?
  {
    if plan == [] || target in dead then WithoutLogs(h, dead)
    else
      var t := At(q, target);
      Recorded(WithoutLogs(h, dead), target, Place(c, t, plan).value, LogAt(h.logs, target) + PlacedLog(c, t, plan))
  }

  /** An entry the server settled, or refused and rolled back, leaves its queue. */
  function Remove(r: Replica, w: WriterRef, s: nat): Replica {
    if w in r.queues && s in r.queues[w].pending then
      r.(queues := r.queues[w := r.queues[w].(pending := r.queues[w].pending - {s})],
         disk := DropRow(r.disk, w, s))
    else r
  }

  /** A fresh number granted: the unissued queue takes it. `None` on a storage clash. */
  function Issue(r: Replica, n: U64): Option<Replica>
    requires n != 0
  {
    var w := Number(n);
    var t := At(r.queues, UNISSUED);
    var moved := if UNISSUED in r.queues then Rekey(r.disk, UNISSUED, w) else Some(r.disk);
    match moved
    case None => None
    case Some(d) =>
      Some(r.(queues := r.queues[w := t] - {UNISSUED},
              disk := PutState(d, w, t.nextSeq, t.head),
              history := r.history.(
                logs := r.history.logs[w := LogAt(r.history.logs, UNISSUED)] - {UNISSUED},
                named := r.history.named + NamesOf(w, t),
                issued := r.history.issued + {n},
                astray := Reissued(r.history.astray, n))))
  }

  /** The writers astray once the unissued queue has taken number `n`. */
  function Reissued(astray: set<WriterRef>, n: U64): set<WriterRef> {
    if UNISSUED in astray then astray + {Number(n)} - {UNISSUED} else astray - {Number(n)}
  }

  function Raised(t: Queue, frontier: nat): nat { Max(Min(frontier + 1, U64_MAX), t.nextSeq) }

  /**
   The server's frontier lifts a queue's next sequence. The source assigns the memory
   first, so an integer the storage cannot hold leaves the two apart.
   */
  function Raise(r: Replica, w: WriterRef, frontier: nat): Replica {
    if w !in r.queues || Raised(r.queues[w], frontier) == r.queues[w].nextSeq then r
    else
      var t := r.queues[w].(nextSeq := Raised(r.queues[w], frontier));
      r.(queues := r.queues[w := t],
         disk := if Storable(t.nextSeq) then PutState(r.disk, w, t.nextSeq, t.head) else r.disk)
  }

  /** The queue of a writer about to bind, created when absent, its state stored. */
  function Ensure(r: Replica, w: WriterRef): Replica {
    var t := At(r.queues, w);
    r.(queues := r.queues[w := t],
       disk := PutState(r.disk, w, t.nextSeq, t.head),
       history := r.history.(logs := r.history.logs[w := LogAt(r.history.logs, w)]))
  }

  /** A number whose tail settled is dropped and owed a retirement. */
  function RetireNumber(r: Replica, w: WriterRef): Replica {
    r.(queues := r.queues - {w},
       disk := DropWriter(r.disk.(retires := r.disk.retires + {w}), w),
       history := WithoutLogs(r.history, [w]))
  }

  function Positions(q: Queues): set<nat> {
    set w, s | w in q && s in q[w].pending :: q[w].pending[s].position
  }

  function NextPosition(q: Queues): nat {
    if Positions(q) == {} then 1 else Greatest(Positions(q)) + 1
  }

  /** What the next process makes of the tables this one leaves. */
  function Restart(r: Replica): Replica {
    var q := Load(r.disk);
    Replica(q, NextPosition(q), None, r.disk.retiredKeys, false, r.disk,
            r.history.(astray := r.history.astray + set w | w in q && w in r.queues && q[w].head != r.queues[w].head))
  }

  // ---- the invariant ----

  ghost predicate OneNumber(q: Queues) {
    forall v, w :: v in q && w in q && v.Number? && w.Number? ==> v == w
  }

  ghost predicate RetiredOwnNothing(q: Queues, retired: set<Digest>) {
    forall k :: k in retired ==> Device(k) !in q
  }

  ghost predicate LogsOk(c: Chain, q: Queues, logs: Logs, astray: set<WriterRef>) {
    && logs.Keys == q.Keys
    && (forall w :: w in q ==> LogOk(c, q[w], logs[w], w in astray))
  }

  ghost predicate NumbersIssued(q: Queues, issued: set<U64>) {
    forall w :: w in q && w.Number? && IsReal(w) ==> w.number in issued
  }

  /** A writer that will never own a queue again. */
  predicate Gone(w: WriterRef, retired: set<Digest>, issued: set<U64>) {
    match w
    case Number(n) => n in issued
    case Device(k) => k in retired
  }

  /** Every outstanding pair names its changeset. */
  ghost predicate NamesCover(q: Queues, named: Names) {
    forall w, s: nat {:trigger Holds(q, w, s)} :: Holds(q, w, s) && IsReal(w) ==>
      (w, s) in named && named[(w, s)] == q[w].pending[s].changeset
  }

  /** A pair once named lies behind its queue, or its writer will never own one again. */
  ghost predicate NamesPast(q: Queues, named: Names, retired: set<Digest>, issued: set<U64>) {
    forall k :: k in named ==>
      IsReal(k.0) && if k.0 in q then k.1 < q[k.0].nextSeq else Gone(k.0, retired, issued)
  }

  ghost predicate NamesOk(q: Queues, named: Names, retired: set<Digest>, issued: set<U64>) {
    NamesCover(q, named) && NamesPast(q, named, retired, issued)
  }

  ghost predicate QueuesInv(r: Replica) {
    && QueuesOk(r.queues) && OneOrder(r.queues) && PositionsBelow(r.queues, r.nextPosition)
    && OneNumber(r.queues) && RetiredOwnNothing(r.queues, r.retired)
  }

  ghost predicate DiskInv(r: Replica) {
    Mirrors(r.queues, r.disk, r.history.astray) && r.disk.retiredKeys == r.retired
  }

  ghost predicate HistoryOk(c: Chain, q: Queues, retired: set<Digest>, h: History) {
    && LogsOk(c, q, h.logs, h.astray)
    && NumbersIssued(q, h.issued)
    && NamesOk(q, h.named, retired, h.issued)
  }

  ghost predicate HistoryInv(c: Chain, r: Replica) { HistoryOk(c, r.queues, r.retired, r.history) }

  ghost predicate Inv(c: Chain, r: Replica) {
    forall u {:trigger Unfold(u)} :: Unfold(u) ==> QueuesInv(r) && DiskInv(r) && HistoryInv(c, r)
  }

  lemma InvHolds(c: Chain, r: Replica)
    requires Inv(c, r)
    ensures QueuesInv(r) && DiskInv(r) && HistoryInv(c, r)
  {
    assert Unfold(0);
  }

  lemma EmptyInv(c: Chain)
    ensures Inv(c, EMPTY)
  {}

  /** A queue may come to stand under `w`. */
  ghost predicate MayOwn(q: Queues, retired: set<Digest>, w: WriterRef) {
    || w in q
    || (w.Device? && w.key !in retired)
    || (w == UNISSUED && forall v :: v in q ==> !v.Number?)
  }

  /** No pair of `w` was ever named, or its queue still stands. */
  predicate Unspent(q: Queues, w: WriterRef, retired: set<Digest>, issued: set<U64>) {
    w in q || !IsReal(w) || !Gone(w, retired, issued)
  }

  lemma SettledBelow(q: Queues, w: WriterRef, n: nat)
    requires w in q
    ensures n <= SettledThrough(q, w) <==>
            n == 0 || (if q[w].pending == map[] then n < q[w].nextSeq else forall s :: s in q[w].pending ==> n < s)
  {}

  // ---- a queue replaced ----

  lemma PutKeepsOwners(q: Queues, retired: set<Digest>, w: WriterRef, t: Queue)
    requires OneNumber(q) && RetiredOwnNothing(q, retired) && MayOwn(q, retired, w)
    ensures OneNumber(q[w := t]) && RetiredOwnNothing(q[w := t], retired)
  {}

  /** `t` grew from `u`: old entries stand, new ones are at or past the old next sequence. */
  ghost predicate Grew(u: Queue, t: Queue) {
    && u.nextSeq <= t.nextSeq
    && (forall s :: s in t.pending ==>
          if s in u.pending then t.pending[s] == u.pending[s] else u.nextSeq <= s < t.nextSeq)
  }

  /** A pair that named a changeset still names it. */
  lemma PutKeepsNamed(q: Queues, named: Names, retired: set<Digest>, issued: set<U64>, w: WriterRef, t: Queue)
    requires NamesOk(q, named, retired, issued) && Unspent(q, w, retired, issued) && Grew(At(q, w), t)
    ensures forall k :: k in named ==> (named + NamesOf(w, t))[k] == named[k]
  {
    forall k | k in named && k in NamesOf(w, t) ensures NamesOf(w, t)[k] == named[k] {
      assert Holds(q, w, k.1);
    }
  }

  lemma PutKeepsCover(q: Queues, named: Names, w: WriterRef, t: Queue)
    requires NamesCover(q, named)
    ensures NamesCover(q[w := t], named + NamesOf(w, t))
  {
    var q', named' := q[w := t], named + NamesOf(w, t);
    forall v, s: nat | Holds(q', v, s) && IsReal(v)
      ensures (v, s) in named' && named'[(v, s)] == q'[v].pending[s].changeset
    {
      if v == w {
        assert (v, s) in NamesOf(w, t);
      } else {
        assert Holds(q, v, s);
        assert (v, s) !in NamesOf(w, t);
      }
    }
  }

  lemma PutKeepsPast(q: Queues, named: Names, retired: set<Digest>, issued: set<U64>, w: WriterRef, t: Queue)
    requires NamesPast(q, named, retired, issued) && Unspent(q, w, retired, issued) && QueueOk(t) && Grew(At(q, w), t)
    ensures NamesPast(q[w := t], named + NamesOf(w, t), retired, issued)
  {}

  lemma PutKeepsLogs(c: Chain, q: Queues, logs: Logs, astray: set<WriterRef>, w: WriterRef, t: Queue, log: seq<Logged>)
    requires LogsOk(c, q, logs, astray) && LogOk(c, t, log, w in astray)
    ensures LogsOk(c, q[w := t], logs[w := log], astray)
  {}

  /** A writer without a queue has an empty log, and a fresh queue starts its chain. */
  lemma NewLogOk(c: Chain, q: Queues, h: History, w: WriterRef)
    requires LogsOk(c, q, h.logs, h.astray)
    ensures LogOk(c, At(q, w), LogAt(h.logs, w), w in h.astray)
  {}

  ghost predicate NamesKept(named: Names, named': Names) {
    forall k :: k in named ==> k in named' && named'[k] == named[k]
  }

  lemma PutKeepsHistory(c: Chain, q: Queues, retired: set<Digest>, h: History, w: WriterRef, t: Queue, log: seq<Logged>)
    requires HistoryOk(c, q, retired, h) && QueuesOk(q)
    requires QueueOk(t) && Grew(At(q, w), t) && LogOk(c, t, log, w in h.astray)
    requires w in q || (w.Device? && w.key !in retired) || w == UNISSUED
    ensures HistoryOk(c, q[w := t], retired, Recorded(h, w, t, log))
    ensures NamesKept(h.named, Recorded(h, w, t, log).named)
  {
    PutKeepsLogs(c, q, h.logs, h.astray, w, t, log);
    PutKeepsNamed(q, h.named, retired, h.issued, w, t);
    PutKeepsCover(q, h.named, w, t);
    PutKeepsPast(q, h.named, retired, h.issued, w, t);
  }

  // ---- append ----

  lemma ExtendGrows(c: Chain, t: Queue, changeset: Bytes, position: nat, origin: Option<Provenance>)
    requires QueueOk(t) && Extend(c, t, changeset, position, origin).Some?
    ensures QueueOk(Extend(c, t, changeset, position, origin).value)
    ensures Grew(t, Extend(c, t, changeset, position, origin).value)
  {}

  lemma PutKeepsOrder(q: Queues, next: nat, w: WriterRef, s: nat, e: Entry, t: Queue)
    requires OneOrder(q) && PositionsBelow(q, next)
    requires t.pending == At(q, w).pending[s := e] && e.position == next
    ensures OneOrder(q[w := t]) && PositionsBelow(q[w := t], next + 1)
  {
    var q' := q[w := t];
    assert forall v, r: nat :: Holds(q', v, r) ==> (v == w && r == s) || Holds(q, v, r);
    assert forall v, r: nat :: Holds(q', v, r) && !(v == w && r == s) ==> q'[v].pending[r] == q[v].pending[r];
  }

  lemma AppendQueues(c: Chain, r: Replica, w: WriterRef, changeset: Bytes, origin: Option<Provenance>)
    requires QueuesInv(r) && MayOwn(r.queues, r.retired, w) && Append(c, r, w, changeset, origin).Some?
    ensures QueuesInv(Append(c, r, w, changeset, origin).value)
  {
    var t := At(r.queues, w);
    var next := Extend(c, t, changeset, r.nextPosition, origin).value;
    ExtendGrows(c, t, changeset, r.nextPosition, origin);
    PutKeepsOrder(r.queues, r.nextPosition, w, t.nextSeq, next.pending[t.nextSeq], next);
    PutKeepsOwners(r.queues, r.retired, w, next);
  }

  lemma AppendHistory(c: Chain, r: Replica, w: WriterRef, changeset: Bytes, origin: Option<Provenance>)
    requires QueuesInv(r) && HistoryInv(c, r) && MayOwn(r.queues, r.retired, w) && Append(c, r, w, changeset, origin).Some?
    ensures HistoryInv(c, Append(c, r, w, changeset, origin).value)
    ensures NamesKept(r.history.named, Append(c, r, w, changeset, origin).value.history.named)
  {
    var t := At(r.queues, w);
    var next := Extend(c, t, changeset, r.nextPosition, origin).value;
    var log := LogAt(r.history.logs, w);
    ExtendGrows(c, t, changeset, r.nextPosition, origin);
    NewLogOk(c, r.queues, r.history, w);
    ExtendLog(c, t, log, w in r.history.astray, changeset, r.nextPosition, origin);
    PutKeepsHistory(c, r.queues, r.retired, r.history, w, next, log + [LogOf(next, t.nextSeq)]);
  }

  lemma AppendInv(c: Chain, r: Replica, w: WriterRef, changeset: Bytes, origin: Option<Provenance>)
    requires Inv(c, r) && MayOwn(r.queues, r.retired, w) && Append(c, r, w, changeset, origin).Some?
    ensures Inv(c, Append(c, r, w, changeset, origin).value)
  {
    InvHolds(c, r);
    AppendQueues(c, r, w, changeset, origin);
    AppendHistory(c, r, w, changeset, origin);
    MirrorsExtend(c, r.queues, r.disk, r.history.astray, w, changeset, r.nextPosition, origin);
    var r' := Append(c, r, w, changeset, origin).value;
    MirrorsLoosens(r'.queues, r'.disk, r.history.astray - {w}, r.history.astray);
  }

  // ---- drop ----

  lemma DropKeepsHistory(c: Chain, q: Queues, retired: set<Digest>, h: History, dead: seq<WriterRef>)
    requires HistoryOk(c, q, retired, h)
    ensures HistoryOk(c, Without(q, dead), retired + KeysOf(dead), WithoutLogs(h, dead))
    ensures WithoutLogs(h, dead).named == h.named
  {
    var q' := Without(q, dead);
    forall w, s: nat | Holds(q', w, s) && IsReal(w)
      ensures (w, s) in h.named && h.named[(w, s)] == q'[w].pending[s].changeset
    {
      assert Holds(q, w, s);
    }
  }

  // ---- carry ----

  lemma CarryQueues(c: Chain, r: Replica, dead: seq<WriterRef>, target: WriterRef)
    requires QueuesInv(r) && NoRepeats(dead) && target !in dead && CarryTo(c, r, dead, target).Some?
    requires MayOwn(Without(r.queues, dead), r.retired + KeysOf(dead), target)
    ensures QueuesInv(CarryTo(c, r, dead, target).value)
    ensures Conserves(r.queues, CarryTo(c, r, dead, target).value.queues)
  {
    var q, q' := r.queues, Carry(c, r.queues, dead, target).value;
    CarryShape(c, q, dead, target);
    CarryKeepsOneOrder(c, q, dead, target);
    CarryConserves(c, q, dead, target);
    ConservesKeepsBelow(q, q', r.nextPosition);
    CarryOwners(q, q', dead, target, r.retired, Plan(q, dead));
  }

  lemma ConservesKeepsBelow(q: Queues, q': Queues, next: nat)
    requires Conserves(q, q') && PositionsBelow(q, next)
    ensures PositionsBelow(q', next)
  {
    forall w, s: nat | Holds(q', w, s) ensures q'[w].pending[s].position < next {
      var b := Carried(w, s, q'[w].pending[s]);
      assert Outstanding(q', b);
      var a :| Stands(q, a) && Follows(a, b);
      assert Holds(q, a.source, a.originalSeq);
    }
  }

  lemma CarryOwners(q: Queues, q': Queues, dead: seq<WriterRef>, target: WriterRef, retired: set<Digest>, plan: seq<Carried>)
    requires OneNumber(q) && RetiredOwnNothing(q, retired) && target !in dead && Carries(q, q', dead, target, plan)
    requires MayOwn(Without(q, dead), retired + KeysOf(dead), target)
    ensures OneNumber(q') && RetiredOwnNothing(q', retired + KeysOf(dead))
  {
    assert forall w :: w in q' && w != target ==> w in Without(q, dead);
    forall k | k in KeysOf(dead) ensures Device(k) !in q' {
      assert Device(k) in dead;
    }
  }

  lemma PlacedGrows(t: Queue, u: Queue, plan: seq<Carried>)
    requires Placed(t, u, plan)
    ensures QueueOk(u) && Grew(t, u)
  {}

  lemma PlacedHistory(c: Chain, q: Queues, retired: set<Digest>, h: History, dead: seq<WriterRef>, target: WriterRef, plan: seq<Carried>)
    requires HistoryOk(c, q, retired, h) && QueuesOk(q) && target !in dead && Place(c, At(q, target), plan).Some?
    requires MayOwn(Without(q, dead), retired + KeysOf(dead), target)
    ensures var u := Place(c, At(q, target), plan).value;
            var h' := Recorded(WithoutLogs(h, dead), target, u, LogAt(h.logs, target) + PlacedLog(c, At(q, target), plan));
            && HistoryOk(c, Without(q, dead)[target := u], retired + KeysOf(dead), h')
            && NamesKept(h.named, h'.named)
  {
    var t, log := At(q, target), LogAt(h.logs, target);
    var u := Place(c, t, plan).value;
    PlaceShape(c, t, plan);
    PlacedGrows(t, u, plan);
    NewLogOk(c, q, h, target);
    PlaceLog(c, t, log, target in h.astray, plan);
    DropKeepsHistory(c, q, retired, h, dead);
    assert At(Without(q, dead), target) == t;
    PutKeepsHistory(c, Without(q, dead), retired + KeysOf(dead), WithoutLogs(h, dead), target, u, log + PlacedLog(c, t, plan));
  }

  lemma WithoutPut(q: Queues, dead: seq<WriterRef>, w: WriterRef, t: Queue)
    requires w !in dead
    ensures Without(q[w := t], dead) == Without(q, dead)[w := t]
  {}

  lemma CarryHistory(c: Chain, r: Replica, dead: seq<WriterRef>, target: WriterRef)
    requires QueuesInv(r) && HistoryInv(c, r) && target !in dead && CarryTo(c, r, dead, target).Some?
    requires MayOwn(Without(r.queues, dead), r.retired + KeysOf(dead), target)
    ensures HistoryInv(c, CarryTo(c, r, dead, target).value)
    ensures NamesKept(r.history.named, CarryTo(c, r, dead, target).value.history.named)
  {
    var plan := Plan(r.queues, dead);
    if plan == [] {
      DropKeepsHistory(c, r.queues, r.retired, r.history, dead);
    } else {
      PlacedHistory(c, r.queues, r.retired, r.history, dead, target, plan);
      WithoutPut(r.queues, dead, target, Place(c, At(r.queues, target), plan).value);
    }
  }

  lemma CarryMirrorsAstray(c: Chain, r: Replica, dead: seq<WriterRef>, target: WriterRef)
    requires CarryTo(c, r, dead, target).Some?
    requires Mirrors(CarryTo(c, r, dead, target).value.queues, CarryTo(c, r, dead, target).value.disk, r.history.astray)
    requires target !in dead
    ensures Mirrors(CarryTo(c, r, dead, target).value.queues, CarryTo(c, r, dead, target).value.disk,
                    CarryTo(c, r, dead, target).value.history.astray)
  {
    var r' := CarryTo(c, r, dead, target).value;
    assert forall w :: w in r'.queues ==> w !in dead;
    MirrorsLoosens(r'.queues, r'.disk, r.history.astray, r'.history.astray);
  }

  lemma CarryInv(c: Chain, r: Replica, dead: seq<WriterRef>, target: WriterRef)
    requires Inv(c, r) && NoRepeats(dead) && target !in dead && CarryTo(c, r, dead, target).Some?
    requires MayOwn(Without(r.queues, dead), r.retired + KeysOf(dead), target)
    ensures Inv(c, CarryTo(c, r, dead, target).value)
  {
    InvHolds(c, r);
    CarryQueues(c, r, dead, target);
    CarryHistory(c, r, dead, target);
    MirrorsCarry(c, r.queues, r.disk, r.history.astray, dead, target);
    CarryMirrorsAstray(c, r, dead, target);
    CarryRetires(c, r.queues, r.disk, dead, target);
  }

  // ---- a carry whose target is among the dead ----

  lemma DropKeepsQueues(r: Replica, dead: seq<WriterRef>)
    requires QueuesInv(r)
    ensures QueuesInv(r.(queues := Without(r.queues, dead), retired := r.retired + KeysOf(dead)))
  {
    var q' := Without(r.queues, dead);
    assert forall v, s: nat :: Holds(q', v, s) ==> Holds(r.queues, v, s) && q'[v].pending[s] == r.queues[v].pending[s];
    forall k | k in KeysOf(dead) ensures Device(k) !in q' {
      assert Device(k) in dead;
    }
  }

  /** It only drops: what the transaction wrote under the target goes with the target. */
  lemma SelfCarryDrops(c: Chain, r: Replica, dead: seq<WriterRef>, target: WriterRef)
    requires target in dead && CarryTo(c, r, dead, target).Some?
    ensures CarryTo(c, r, dead, target).value ==
            r.(queues := Without(r.queues, dead), retired := r.retired + KeysOf(dead),
               disk := CarryDisk(c, r.disk, r.queues, dead, target), history := WithoutLogs(r.history, dead))
  {
    var t := Place(c, At(r.queues, target), Plan(r.queues, dead)).value;
    assert Without(r.queues[target := t], dead) == Without(r.queues, dead);
  }

  lemma DroppedMirrors(q: Queues, d: Disk, h: History, dead: seq<WriterRef>)
    requires Mirrors(Without(q, dead), d, h.astray)
    ensures Mirrors(Without(q, dead), d, WithoutLogs(h, dead).astray)
  {
    MirrorsLoosens(Without(q, dead), d, h.astray, WithoutLogs(h, dead).astray);
  }

  lemma SelfCarryInv(c: Chain, r: Replica, dead: seq<WriterRef>, target: WriterRef)
    requires Inv(c, r) && target in dead && CarryTo(c, r, dead, target).Some?
    ensures Inv(c, CarryTo(c, r, dead, target).value)
  {
    InvHolds(c, r);
    SelfCarryDrops(c, r, dead, target);
    DropKeepsQueues(r, dead);
    DropKeepsHistory(c, r.queues, r.retired, r.history, dead);
    MirrorsCarry(c, r.queues, r.disk, r.history.astray, dead, target);
    DroppedMirrors(r.queues, CarryDisk(c, r.disk, r.queues, dead, target), r.history, dead);
    CarryRetires(c, r.queues, r.disk, dead, target);
  }

  // ---- the operations on one standing queue ----

  /** `t` holds no entry `u` did not, and does not fall behind it. */
  ghost predicate Within(t: Queue, u: Queue) {
    && u.nextSeq <= t.nextSeq && t.head == u.head
    && (forall s :: s in t.pending ==> s in u.pending && t.pending[s] == u.pending[s])
  }

  lemma WithinKeepsOrder(q: Queues, next: nat, w: WriterRef, t: Queue)
    requires OneOrder(q) && PositionsBelow(q, next) && Within(t, At(q, w))
    ensures OneOrder(q[w := t]) && PositionsBelow(q[w := t], next)
  {
    var q' := q[w := t];
    assert forall v, r: nat :: Holds(q', v, r) ==> Holds(q, v, r) && q'[v].pending[r] == q[v].pending[r];
  }

  lemma WithinKeepsLog(c: Chain, t: Queue, u: Queue, log: seq<Logged>, astray: bool)
    requires LogOk(c, u, log, astray) && Within(t, u)
    ensures LogOk(c, t, log, astray)
  {
    assert forall s :: s in t.pending ==> LogOf(t, s) == LogOf(u, s);
  }

  lemma WithinKeepsCover(q: Queues, named: Names, w: WriterRef, t: Queue)
    requires NamesCover(q, named) && Within(t, At(q, w))
    ensures NamesCover(q[w := t], named)
  {
    var q' := q[w := t];
    assert forall v, r: nat :: Holds(q', v, r) ==> Holds(q, v, r) && q'[v].pending[r] == q[v].pending[r];
  }

  lemma WithinKeepsPast(q: Queues, named: Names, retired: set<Digest>, issued: set<U64>, w: WriterRef, t: Queue)
    requires NamesPast(q, named, retired, issued) && Unspent(q, w, retired, issued) && Within(t, At(q, w))
    ensures NamesPast(q[w := t], named, retired, issued)
  {}

  lemma WithinKeepsHistory(c: Chain, q: Queues, retired: set<Digest>, h: History, w: WriterRef, t: Queue)
    requires HistoryOk(c, q, retired, h) && QueuesOk(q) && Within(t, At(q, w))
    requires w in q || (w.Device? && w.key !in retired)
    ensures HistoryOk(c, q[w := t], retired, h.(logs := h.logs[w := LogAt(h.logs, w)]))
  {
    var log := LogAt(h.logs, w);
    NewLogOk(c, q, h, w);
    WithinKeepsLog(c, t, At(q, w), log, w in h.astray);
    PutKeepsLogs(c, q, h.logs, h.astray, w, t, log);
    WithinKeepsCover(q, h.named, w, t);
    WithinKeepsPast(q, h.named, retired, h.issued, w, t);
  }

  lemma WithinInv(c: Chain, r: Replica, w: WriterRef, t: Queue)
    requires QueuesInv(r) && HistoryInv(c, r) && QueueOk(t) && Within(t, At(r.queues, w))
    requires w in r.queues || (w.Device? && w.key !in r.retired)
    ensures var r' := r.(queues := r.queues[w := t], history := r.history.(logs := r.history.logs[w := LogAt(r.history.logs, w)]));
            QueuesInv(r') && HistoryInv(c, r')
  {
    WithinKeepsOrder(r.queues, r.nextPosition, w, t);
    PutKeepsOwners(r.queues, r.retired, w, t);
    WithinKeepsHistory(c, r.queues, r.retired, r.history, w, t);
  }

  lemma SameLogs(c: Chain, q: Queues, retired: set<Digest>, h: History, w: WriterRef)
    requires HistoryOk(c, q, retired, h) && w in q
    ensures h.(logs := h.logs[w := LogAt(h.logs, w)]) == h
  {}

  lemma WithinStands(c: Chain, r: Replica, w: WriterRef, t: Queue)
    requires QueuesInv(r) && HistoryInv(c, r) && w in r.queues && QueueOk(t) && Within(t, r.queues[w])
    ensures QueuesInv(r.(queues := r.queues[w := t])) && HistoryInv(c, r.(queues := r.queues[w := t]))
  {
    WithinInv(c, r, w, t);
    SameLogs(c, r.queues, r.retired, r.history, w);
  }

  lemma RemoveInv(c: Chain, r: Replica, w: WriterRef, s: nat)
    requires Inv(c, r)
    ensures Inv(c, Remove(r, w, s))
  {
    InvHolds(c, r);
    if w in r.queues && s in r.queues[w].pending {
      WithinStands(c, r, w, r.queues[w].(pending := r.queues[w].pending - {s}));
      RemoveDisk(r, w, s);
    }
  }

  lemma RemoveDisk(r: Replica, w: WriterRef, s: nat)
    requires DiskInv(r)
    ensures DiskInv(Remove(r, w, s))
  {
    if w in r.queues && s in r.queues[w].pending {
      MirrorsDropRow(r.queues, r.disk, r.history.astray, w, s);
    }
  }

  lemma RaiseInv(c: Chain, r: Replica, w: WriterRef, frontier: nat)
    requires Inv(c, r) && Storable(frontier + 1)
    ensures Inv(c, Raise(r, w, frontier))
  {
    InvHolds(c, r);
    if w in r.queues && Raised(r.queues[w], frontier) != r.queues[w].nextSeq {
      WithinStands(c, r, w, r.queues[w].(nextSeq := Raised(r.queues[w], frontier)));
      RaiseDisk(r, w, frontier);
    }
  }

  lemma RaiseDisk(r: Replica, w: WriterRef, frontier: nat)
    requires DiskInv(r) && w in r.queues && Storable(Raised(r.queues[w], frontier))
    ensures DiskInv(Raise(r, w, frontier))
  {
    var t, next := r.queues[w], Raised(r.queues[w], frontier);
    var r' := Raise(r, w, frontier);
    if next != t.nextSeq {
      MirrorsState(r.queues, r.disk, r.history.astray, w, next, t.head);
      MirrorsLoosens(r'.queues, r'.disk, r.history.astray - {w}, r.history.astray);
    }
  }

  /** The exact condition: a frontier leaves memory and disk agreeing if and only if the raised sequence can be stored. */
  lemma RaiseMirrorsExactly(r: Replica, w: WriterRef, frontier: nat)
    requires Mirrors(r.queues, r.disk, r.history.astray) && w in r.queues && QueueOk(r.queues[w])
    ensures Mirrors(Raise(r, w, frontier).queues, Raise(r, w, frontier).disk, r.history.astray)
            <==> Storable(Raised(r.queues[w], frontier))
  {
    var t, next := r.queues[w], Raised(r.queues[w], frontier);
    MirrorsState(r.queues, r.disk, r.history.astray, w, next, t.head);
    MirrorsLoosens(r.queues[w := t.(nextSeq := next)], PutState(r.disk, w, next, t.head), r.history.astray - {w}, r.history.astray);
  }

  lemma EnsureInv(c: Chain, r: Replica, w: WriterRef)
    requires Inv(c, r) && (w in r.queues || (w.Device? && w.key !in r.retired))
    ensures Inv(c, Ensure(r, w))
  {
    InvHolds(c, r);
    var t := At(r.queues, w);
    WithinInv(c, r, w, t);
    MirrorsState(r.queues, r.disk, r.history.astray, w, t.nextSeq, t.head);
    MirrorsLoosens(Ensure(r, w).queues, Ensure(r, w).disk, r.history.astray - {w}, r.history.astray);
  }

  lemma DropNumber(q: Queues, retired: set<Digest>, w: WriterRef)
    requires w.Number?
    ensures Without(q, [w]) == q - {w} && retired + KeysOf([w]) == retired
  {}

  lemma RetireNumberInv(c: Chain, r: Replica, w: WriterRef)
    requires Inv(c, r) && w.Number?
    ensures Inv(c, RetireNumber(r, w))
  {
    InvHolds(c, r);
    DropNumber(r.queues, r.retired, w);
    DropKeepsQueues(r, [w]);
    DropKeepsHistory(c, r.queues, r.retired, r.history, [w]);
    MirrorsDropWriter(r.queues, r.disk.(retires := r.disk.retires + {w}), r.history.astray, w);
    var r' := RetireNumber(r, w);
    MirrorsLoosens(r'.queues, r'.disk, r.history.astray, r'.history.astray);
  }

  // ---- a number issued ----

  lemma IssueOrder(q: Queues, next: nat, n: U64)
    requires OneOrder(q) && PositionsBelow(q, next) && Number(n) !in q && n != 0
    ensures OneOrder(q[Number(n) := At(q, UNISSUED)] - {UNISSUED})
    ensures PositionsBelow(q[Number(n) := At(q, UNISSUED)] - {UNISSUED}, next)
  {
    var q' := q[Number(n) := At(q, UNISSUED)] - {UNISSUED};
    assert forall v, s: nat :: Holds(q', v, s) ==>
        var u := if v == Number(n) then UNISSUED else v; Holds(q, u, s) && q'[v].pending[s] == q[u].pending[s];
  }

  lemma IssueNames(q: Queues, h: History, retired: set<Digest>, n: U64)
    requires NamesOk(q, h.named, retired, h.issued) && QueueOk(At(q, UNISSUED)) && n !in h.issued && n != 0 && Number(n) !in q
    ensures NamesOk(q[Number(n) := At(q, UNISSUED)], h.named + NamesOf(Number(n), At(q, UNISSUED)), retired, h.issued + {n})
    ensures NamesKept(h.named, h.named + NamesOf(Number(n), At(q, UNISSUED)))
  {
    var t, w := At(q, UNISSUED), Number(n);
    PutKeepsNamed(q, h.named, retired, h.issued, w, t);
    PutKeepsCover(q, h.named, w, t);
    PutKeepsPast(q, h.named, retired, h.issued, w, t);
  }

  lemma IssueLogs(c: Chain, q: Queues, h: History, n: U64)
    requires LogsOk(c, q, h.logs, h.astray) && Number(n) !in q
    ensures LogsOk(c, q[Number(n) := At(q, UNISSUED)] - {UNISSUED},
                   h.logs[Number(n) := LogAt(h.logs, UNISSUED)] - {UNISSUED}, Reissued(h.astray, n))
  {
    NewLogOk(c, q, h, UNISSUED);
  }

  lemma UnissuedDropped(q: Queues, named: Names, retired: set<Digest>, issued: set<U64>)
    requires NamesOk(q, named, retired, issued)
    ensures NamesOk(q - {UNISSUED}, named, retired, issued)
  {
    var q' := q - {UNISSUED};
    assert forall v, s: nat :: Holds(q', v, s) ==> Holds(q, v, s) && q'[v].pending[s] == q[v].pending[s];
  }

  lemma IssueHistory(c: Chain, q: Queues, retired: set<Digest>, h: History, n: U64)
    requires HistoryOk(c, q, retired, h) && QueuesOk(q) && n !in h.issued && n != 0 && Number(n) !in q
    ensures var t := At(q, UNISSUED);
            HistoryOk(c, q[Number(n) := t] - {UNISSUED}, retired,
                      h.(logs := h.logs[Number(n) := LogAt(h.logs, UNISSUED)] - {UNISSUED},
                         named := h.named + NamesOf(Number(n), t),
                         issued := h.issued + {n},
                         astray := Reissued(h.astray, n)))
    ensures NamesKept(h.named, h.named + NamesOf(Number(n), At(q, UNISSUED)))
  {
    var t, w := At(q, UNISSUED), Number(n);
    IssueLogs(c, q, h, n);
    IssueNames(q, h, retired, n);
    UnissuedDropped(q[w := t], h.named + NamesOf(w, t), retired, h.issued + {n});
  }

  lemma IssueOwners(q: Queues, retired: set<Digest>, n: U64)
    requires QueuesOk(q) && RetiredOwnNothing(q, retired) && n != 0
    requires forall v :: v in q && v.Number? ==> v == UNISSUED
    ensures var q' := q[Number(n) := At(q, UNISSUED)] - {UNISSUED};
            QueuesOk(q') && OneNumber(q') && RetiredOwnNothing(q', retired)
  {}

  lemma IssueDisk(r: Replica, n: U64)
    requires Mirrors(r.queues, r.disk, r.history.astray) && n != 0 && Number(n) !in r.queues
    ensures Issue(r, n).Some? && Issue(r, n).value.disk.retiredKeys == r.disk.retiredKeys
    ensures Mirrors(Issue(r, n).value.queues, Issue(r, n).value.disk, Issue(r, n).value.history.astray)
  {
    var t, w := At(r.queues, UNISSUED), Number(n);
    var q', astray := r.queues[w := t] - {UNISSUED}, r.history.astray;
    if UNISSUED in r.queues {
      MirrorsRekey(r.queues, r.disk, astray, UNISSUED, w);
      var d := Rekey(r.disk, UNISSUED, w).value;
      MirrorsState(q', d, astray + {w}, w, t.nextSeq, t.head);
      assert q'[w := Queue(t.nextSeq, t.head, At(q', w).pending)] == q';
      MirrorsLoosens(q', PutState(d, w, t.nextSeq, t.head), astray + {w} - {w}, Reissued(astray, n));
    } else {
      MirrorsState(r.queues, r.disk, astray, w, 1, GENESIS);
      assert r.queues[w := Queue(1, GENESIS, At(r.queues, w).pending)] == q';
      MirrorsLoosens(q', PutState(r.disk, w, 1, GENESIS), astray - {w}, Reissued(astray, n));
    }
  }

  lemma IssueKeeps(c: Chain, r: Replica, n: U64)
    requires QueuesInv(r) && DiskInv(r) && HistoryInv(c, r) && n !in r.history.issued && n != 0
    requires forall v :: v in r.queues && v.Number? ==> v == UNISSUED
    ensures Issue(r, n).Some?
    ensures var r' := Issue(r, n).value;
            QueuesInv(r') && DiskInv(r') && HistoryInv(c, r') && NamesKept(r.history.named, r'.history.named)
  {
    IssueDisk(r, n);
    IssueQueues(r, n);
    IssueRecords(c, r, n);
  }

  lemma IssueRecords(c: Chain, r: Replica, n: U64)
    requires QueuesOk(r.queues) && HistoryInv(c, r) && n !in r.history.issued && n != 0 && Number(n) !in r.queues
    requires Issue(r, n).Some?
    ensures HistoryInv(c, Issue(r, n).value) && NamesKept(r.history.named, Issue(r, n).value.history.named)
  {
    IssueHistory(c, r.queues, r.retired, r.history, n);
  }

  lemma IssueInv(c: Chain, r: Replica, n: U64)
    requires Inv(c, r) && n !in r.history.issued && n != 0
    requires forall v :: v in r.queues && v.Number? ==> v == UNISSUED
    ensures Issue(r, n).Some? && Inv(c, Issue(r, n).value)
    ensures NamesKept(r.history.named, Issue(r, n).value.history.named)
  {
    InvHolds(c, r);
    IssueKeeps(c, r, n);
  }

  lemma IssueQueues(r: Replica, n: U64)
    requires QueuesInv(r) && n != 0 && Issue(r, n).Some?
    requires forall v :: v in r.queues && v.Number? ==> v == UNISSUED
    ensures QueuesInv(Issue(r, n).value)
  {
    IssueOrder(r.queues, r.nextPosition, n);
    IssueOwners(r.queues, r.retired, n);
  }

  // ---- restart ----

  lemma HeadsAside(q: Queues, q': Queues, retired: set<Digest>)
    requires SameButHeads(q, q') && QueuesOk(q) && OneOrder(q) && OneNumber(q) && RetiredOwnNothing(q, retired)
    ensures QueuesOk(q') && OneOrder(q') && OneNumber(q') && RetiredOwnNothing(q', retired)
  {
    assert forall v, s: nat :: Holds(q', v, s) <==> Holds(q, v, s);
  }

  lemma HeadsAsideHistory(q: Queues, q': Queues, retired: set<Digest>, h: History)
    requires SameButHeads(q, q') && NumbersIssued(q, h.issued)
    requires NamesOk(q, h.named, retired, h.issued)
    ensures NumbersIssued(q', h.issued)
    ensures NamesOk(q', h.named, retired, h.issued)
  {
    assert forall v, s: nat :: Holds(q', v, s) <==> Holds(q, v, s);
  }

  /** The reloaded position counter is past every outstanding entry. */
  lemma NextPositionAbove(q: Queues)
    ensures PositionsBelow(q, NextPosition(q))
  {
    forall w, s: nat | Holds(q, w, s) ensures q[w].pending[s].position < NextPosition(q) {
      assert q[w].pending[s].position in Positions(q);
    }
  }

  /** A log that covered a queue covers it reloaded: while the last appended entry is pending, its hash is the head again. */
  lemma ReloadCovers(c: Chain, t: Queue, u: Queue, log: seq<Logged>)
    requires Covers(c, t, log) && u.nextSeq == t.nextSeq && u.pending == t.pending
    requires t.pending != map[] ==> u.head == LastHash(t)
    ensures Covers(c, u, log)
  {
    assert forall s :: s in u.pending ==> LogOf(u, s) == LogOf(t, s);
    if log != [] && log[|log| - 1].seqNo in t.pending {
      LastAppendedIsLast(c, t, log);
    }
  }

  lemma LastAppendedIsLast(c: Chain, t: Queue, log: seq<Logged>)
    requires Covers(c, t, log) && log != [] && log[|log| - 1].seqNo in t.pending
    ensures t.head == LastHash(t) == log[|log| - 1].hash
  {
    var last := log[|log| - 1].seqNo;
    forall s | s in t.pending ensures s <= last {
      var i := LoggedAt(c, t, log, s);
    }
    assert Greatest(t.pending.Keys) == last;
    var i := LoggedAt(c, t, log, last);
    assert i == |log| - 1;
  }

  lemma LoggedAt(c: Chain, t: Queue, log: seq<Logged>, s: nat) returns (i: nat)
    requires Covers(c, t, log) && s in t.pending
    ensures i < |log| && log[i] == LogOf(t, s)
    ensures i == |log| - 1 || s < log[|log| - 1].seqNo
  {
    assert LogOf(t, s) in log;
    i :| 0 <= i < |log| && log[i] == LogOf(t, s);
  }

  lemma RestartLogs(c: Chain, r: Replica)
    requires SameButHeads(r.queues, Load(r.disk)) && LogsOk(c, r.queues, r.history.logs, r.history.astray)
    requires forall w :: w in r.queues && r.queues[w].pending != map[] ==> Load(r.disk)[w].head == LastHash(r.queues[w])
    ensures LogsOk(c, Load(r.disk), r.history.logs, Restart(r).history.astray)
  {
    var q, q', astray := r.queues, Load(r.disk), Restart(r).history.astray;
    forall w | w in q' ensures LogOk(c, q'[w], r.history.logs[w], w in astray) {
      ReloadCovers(c, q[w], q'[w], r.history.logs[w]);
      assert w !in astray ==> q'[w] == q[w];
    }
  }

  lemma RestartMirrors(r: Replica)
    requires SameButHeads(r.queues, Load(r.disk)) && Mirrors(r.queues, r.disk, r.history.astray)
    ensures Mirrors(Load(r.disk), r.disk, Restart(r).history.astray)
  {
    var q, q' := r.queues, Load(r.disk);
    assert forall w :: w in q' && w !in Restart(r).history.astray ==> q'[w] == q[w] && w !in r.history.astray;
    assert forall w, s: nat :: Holds(q', w, s) <==> Holds(q, w, s);
  }

  lemma RestartInv(c: Chain, r: Replica)
    requires Inv(c, r)
    ensures Inv(c, Restart(r))
    ensures SameButHeads(r.queues, Restart(r).queues)
  {
    InvHolds(c, r);
    LoadRebuilds(r.queues, r.disk, r.history.astray);
    HeadsAside(r.queues, Load(r.disk), r.retired);
    HeadsAsideHistory(r.queues, Load(r.disk), r.retired, r.history);
    NextPositionAbove(Load(r.disk));
    RestartLogs(c, r);
    RestartMirrors(r);
  }

  // ---- what no operation undoes ----

  /**
   From `r` on to `r'`: keys stay retired and numbers issued, a pair keeps the changeset
   it named, a real writer's next sequence and settled prefix never go back while its
   queue lives, and once its queue is gone it never owns one again.
   */
  ghost predicate Onward(r: Replica, r': Replica) {
    forall u {:trigger Unfold(u)} :: Unfold(u) ==> GoesOn(r, r')
  }

  lemma OnwardHolds(r: Replica, r': Replica)
    requires Onward(r, r')
    ensures GoesOn(r, r')
  {
    assert Unfold(0);
  }

  ghost predicate GoesOn(r: Replica, r': Replica) {
    && r.retired <= r'.retired && r.history.issued <= r'.history.issued
    && NamesKept(r.history.named, r'.history.named)
    && (forall w :: IsReal(w) && w in r.queues ==>
          if w in r'.queues then Advances(r.queues, r'.queues, w) else Gone(w, r'.retired, r'.history.issued))
    && (forall w :: IsReal(w) && w !in r.queues && Gone(w, r.retired, r.history.issued) ==> w !in r'.queues)
  }

  predicate Advances(q: Queues, q': Queues, w: WriterRef)
    requires w in q && w in q'
  {
    q[w].nextSeq <= q'[w].nextSeq && SettledThrough(q, w) <= SettledThrough(q', w)
  }

  lemma OnwardComposes(r: Replica, r1: Replica, r2: Replica)
    requires Onward(r, r1) && Onward(r1, r2)
    ensures Onward(r, r2)
  {
    assert Unfold(0);
  }

  lemma GrewAdvances(q: Queues, w: WriterRef, t: Queue)
    requires w in q && QueueOk(q[w]) && QueueOk(t) && Grew(q[w], t)
    ensures Advances(q, q[w := t], w)
  {
    SettledBelow(q[w := t], w, SettledThrough(q, w));
  }

  lemma OnwardPut(r: Replica, r': Replica, w: WriterRef, t: Queue)
    requires r'.queues == r.queues[w := t] && r'.retired == r.retired && r'.history.issued == r.history.issued
    requires NamesKept(r.history.named, r'.history.named)
    requires QueuesOk(r.queues) && QueueOk(t) && Grew(At(r.queues, w), t)
    requires Unspent(r.queues, w, r.retired, r.history.issued)
    ensures Onward(r, r')
  {
    if w in r.queues {
      GrewAdvances(r.queues, w, t);
    }
  }

  lemma OnwardDrop(r: Replica, r': Replica, dead: seq<WriterRef>)
    requires r'.queues == Without(r.queues, dead) && r'.retired == r.retired + KeysOf(dead)
    requires r'.history.issued == r.history.issued && r'.history.named == r.history.named
    requires NumbersIssued(r.queues, r.history.issued)
    ensures Onward(r, r')
  {
    forall w | IsReal(w) && w in r.queues && w !in r'.queues ensures Gone(w, r'.retired, r'.history.issued) {
      assert w in dead;
    }
  }

  lemma AppendOnward(c: Chain, r: Replica, w: WriterRef, changeset: Bytes, origin: Option<Provenance>)
    requires Inv(c, r) && MayOwn(r.queues, r.retired, w) && Append(c, r, w, changeset, origin).Some?
    ensures Onward(r, Append(c, r, w, changeset, origin).value)
  {
    InvHolds(c, r);
    AppendHistory(c, r, w, changeset, origin);
    ExtendGrows(c, At(r.queues, w), changeset, r.nextPosition, origin);
    var r' := Append(c, r, w, changeset, origin).value;
    OnwardPut(r, r', w, r'.queues[w]);
  }

  lemma CarryOnward(c: Chain, r: Replica, dead: seq<WriterRef>, target: WriterRef)
    requires QueuesOk(r.queues) && NumbersIssued(r.queues, r.history.issued) && target !in dead && CarryTo(c, r, dead, target).Some?
    requires MayOwn(Without(r.queues, dead), r.retired + KeysOf(dead), target)
    requires NamesKept(r.history.named, CarryTo(c, r, dead, target).value.history.named)
    ensures Onward(r, CarryTo(c, r, dead, target).value)
  {
    var r' := CarryTo(c, r, dead, target).value;
    var r1 := r.(queues := Without(r.queues, dead), retired := r.retired + KeysOf(dead), history := WithoutLogs(r.history, dead));
    OnwardDrop(r, r1, dead);
    var plan, t := Plan(r.queues, dead), At(r.queues, target);
    if plan == [] {
      OnwardDrop(r, r', dead);
    } else {
      PlaceShape(c, t, plan);
      PlacedGrows(t, Place(c, t, plan).value, plan);
      WithoutPut(r.queues, dead, target, Place(c, t, plan).value);
      OnwardPut(r1, r', target, Place(c, t, plan).value);
      OnwardComposes(r, r1, r');
    }
  }

  lemma SelfCarryOnward(c: Chain, r: Replica, dead: seq<WriterRef>, target: WriterRef)
    requires Inv(c, r) && target in dead && CarryTo(c, r, dead, target).Some?
    ensures Onward(r, CarryTo(c, r, dead, target).value)
  {
    InvHolds(c, r);
    SelfCarryDrops(c, r, dead, target);
    OnwardDrop(r, CarryTo(c, r, dead, target).value, dead);
  }

  lemma WithinOnward(r: Replica, r': Replica, w: WriterRef, t: Queue)
    requires r'.queues == r.queues[w := t] && r'.retired == r.retired
    requires r'.history.issued == r.history.issued && r'.history.named == r.history.named
    requires QueuesOk(r.queues) && QueueOk(t) && Within(t, At(r.queues, w))
    requires Unspent(r.queues, w, r.retired, r.history.issued)
    ensures Onward(r, r')
  {
    OnwardPut(r, r', w, t);
  }

  lemma OnwardStays(r: Replica)
    ensures Onward(r, r)
  {}

  lemma RemoveOnward(c: Chain, r: Replica, w: WriterRef, s: nat)
    requires Inv(c, r)
    ensures Onward(r, Remove(r, w, s))
  {
    InvHolds(c, r);
    if w in r.queues && s in r.queues[w].pending {
      WithinOnward(r, Remove(r, w, s), w, Remove(r, w, s).queues[w]);
    }
  }

  lemma RaiseOnward(r: Replica, w: WriterRef, frontier: nat)
    requires QueuesOk(r.queues) && Storable(frontier + 1)
    ensures Onward(r, Raise(r, w, frontier))
  {
    var r' := Raise(r, w, frontier);
    if w in r.queues {
      assert r'.queues == r.queues[w := r'.queues[w]];
      WithinOnward(r, r', w, r'.queues[w]);
    } else {
      OnwardStays(r);
    }
  }

  lemma EnsureOnward(c: Chain, r: Replica, w: WriterRef)
    requires Inv(c, r) && (w in r.queues || (w.Device? && w.key !in r.retired))
    ensures Onward(r, Ensure(r, w))
  {
    InvHolds(c, r);
    WithinOnward(r, Ensure(r, w), w, At(r.queues, w));
  }

  lemma RetireNumberOnward(c: Chain, r: Replica, w: WriterRef)
    requires Inv(c, r) && w.Number?
    ensures Onward(r, RetireNumber(r, w))
  {
    InvHolds(c, r);
    assert Without(r.queues, [w]) == r.queues - {w};
    assert r.retired + KeysOf([w]) == r.retired;
    OnwardDrop(r, RetireNumber(r, w), [w]);
  }

  lemma OnwardNew(r: Replica, r': Replica, n: U64, t: Queue)
    requires n != 0 && n !in r.history.issued && Number(n) !in r.queues
    requires r'.queues == r.queues[Number(n) := t] - {UNISSUED} && r'.retired == r.retired
    requires r'.history.issued == r.history.issued + {n} && NamesKept(r.history.named, r'.history.named)
    ensures Onward(r, r')
  {
    forall w | IsReal(w) && w in r.queues ensures w in r'.queues && Advances(r.queues, r'.queues, w) {
      assert r'.queues[w] == r.queues[w];
    }
  }

  lemma IssueOnward(c: Chain, r: Replica, n: U64)
    requires Inv(c, r) && n !in r.history.issued && n != 0
    requires forall v :: v in r.queues && v.Number? ==> v == UNISSUED
    ensures Issue(r, n).Some? && Onward(r, Issue(r, n).value)
  {
    InvHolds(c, r);
    IssueInv(c, r, n);
    OnwardNew(r, Issue(r, n).value, n, At(r.queues, UNISSUED));
  }

  lemma RestartOnward(c: Chain, r: Replica)
    requires Inv(c, r)
    ensures Onward(r, Restart(r))
  {
    InvHolds(c, r);
    LoadRebuilds(r.queues, r.disk, r.history.astray);
  }
}
