/**
 The writer protocol as a state machine: which writer a write queues under, what a
 handshake asks for, and what every answer, fatal error, restore and restart does to the
 queues. The claims are over every run from an empty replica.

 What the network, the certificate store and the clock decide arrives with each event. A
 key the client opens is the one its certificate names.
 */
module WriterRuns {
  import opened Common
  import opened WriterNames
  import opened WriterQueues
  import opened WriterDisk
  import opened WriterState

  datatype Grant = Grant(number: U64, frontier: nat)

  /** How a handshake ended: the writer refused, the exchange lost, or an acknowledgement. */
  datatype Answer = Refused | Lost | Acked(grant: Option<Grant>)

  datatype Request = AskIssue | AskNumber(number: U64) | AskDevice

  datatype Archived = Archived(writer: WriterRef, seqNo: nat, changeset: Bytes, provenance: Option<Provenance>)

  /**
   `cert` is the device key the held certificate names, `standing` whether it still stands,
   `keys` whether the device's keys are at hand, `held` whether a bind waits on the tail.
   */
  datatype Event =
    | Push(cert: Option<Digest>, changeset: Bytes)
    | Attach(cert: Option<Digest>, standing: bool, keys: bool, answer: Answer)
    | Applied(seqNo: nat, held: bool)
    | Refuse(seqNo: nat, held: bool)
    | KeysArrive(cert: Option<Digest>, standing: bool)
    | BindAnswered(key: Digest, frontier: nat)
    | BindRefused(cert: Option<Digest>)
    | WriterFatal(cert: Option<Digest>)
    | DeviceRevoked(cert: Option<Digest>)
    | Resend
    | Restore(cert: Option<Digest>, archive: seq<Archived>)
    | RetireAnswered(writer: WriterRef)
    | Disconnect
    | Die

  // ---- selection ----

  function RealNumbers(q: Queues): set<nat> { set w | w in q && w.Number? && IsReal(w) :: w.number as nat }

  /** The first issued number the replica holds a queue for. */
  function NumberIdentity(q: Queues): (n: Option<U64>)
    ensures n.Some? ==> Number(n.value) in q && n.value != 0
    ensures n.None? ==> forall w :: w in q && w.Number? ==> w == UNISSUED
  {
    assert forall w :: w in q && w.Number? && IsReal(w) ==> w.number as nat in RealNumbers(q);
    if RealNumbers(q) == {} then None else Some(Least(RealNumbers(q)))
  }

  function NumberOrUnissued(q: Queues): WriterRef {
    match NumberIdentity(q)
    case Some(n) => Number(n)
    case None => UNISSUED
  }

  /** The heir of a dead writer: the held number, unless it is the dead one itself. */
  function TailTarget(q: Queues, dead: WriterRef): WriterRef {
    if NumberOrUnissued(q) != dead then NumberOrUnissued(q) else UNISSUED
  }

  /** Who takes a push: the certified device while its key stands, else the number. */
  function ChooseWriter(r: Replica, cert: Option<Digest>): WriterRef {
    if cert.Some? && cert.value !in r.retired then Device(cert.value) else NumberOrUnissued(r.queues)
  }

  predicate Bindable(r: Replica, cert: Option<Digest>, standing: bool) {
    (exists w :: w in r.queues && w.Device?) && cert.Some? && cert.value !in r.retired && standing
  }

  predicate HasTail(q: Queues, w: WriterRef) { w in q && q[w].pending != map[] }

  function Handshake(r: Replica, cert: Option<Digest>, standing: bool): Request {
    var number := NumberIdentity(r.queues);
    if number.Some? && HasTail(r.queues, Number(number.value)) then AskNumber(number.value)
    else if HasTail(r.queues, UNISSUED) then AskIssue
    else if Bindable(r, cert, standing) then AskDevice
    else if number.Some? then AskNumber(number.value)
    else AskIssue
  }

  // ---- the transitions ----

  /** The replica once the grant is taken, and the writer it binds. `None` when the grant does not answer the request. */
  function Granted(c: Chain, r: Replica, request: Request, grant: Option<Grant>, cert: Option<Digest>): Option<(Replica, Option<WriterRef>)> {
    match request
    case AskIssue =>
      if grant.None? || grant.value.number == 0 || grant.value.frontier != 0 then None
      else (match Issue(r, grant.value.number)
            case None => None
            case Some(r') => Some((r', Some(Number(grant.value.number)))))
    case AskNumber(n) =>
      if grant.None? || grant.value.number != n then None
      else Some((if Number(n) in r.queues then r else Ensure(r, Number(n)), Some(Number(n))))
    case AskDevice =>
      if grant.Some? then None
      else if cert.None? then Some((r, None))
      else (match CarryTo(c, r, [UNISSUED], Device(cert.value))
            case None => None
            case Some(r') => Some((r', None)))
  }

  /** The queue a bind about to be sent stands under. */
  function PlanBind(r: Replica, cert: Option<Digest>, standing: bool, keys: bool): Replica {
    if Bindable(r, cert, standing) && keys && !(r.bound.Some? && r.bound.value.Device?) then Ensure(r, Device(cert.value)) else r
  }

  function Connect(c: Chain, r: Replica, cert: Option<Digest>, standing: bool, keys: bool, grant: Option<Grant>): Option<Replica> {
    match Granted(c, r, Handshake(r, cert, standing), grant, cert)
    case None => None
    case Some((r1, bound)) =>
      var r2 := PlanBind(r1.(bound := bound, connected := true), cert, standing, keys);
      Some(if bound.Some? && bound.value.Number? && grant.Some? then Raise(r2, bound.value, grant.value.frontier) else r2)
  }

  /** The unissued writer's tail has nowhere to go but the unissued writer. */
  predicate GoesNowhere(q: Queues, dead: WriterRef) { TailTarget(q, dead) == dead && HasTail(q, dead) }

  /**
   A carry into its own source commits its tables and then panics, its source already out
   of memory. The replica goes on from what the next open loads.
   */
  function CarryToLive(c: Chain, r: Replica, dead: WriterRef): Replica {
    match CarryTo(c, r, [dead], TailTarget(r.queues, dead))
    case None => r
    case Some(r') => if GoesNowhere(r.queues, dead) then Restart(r') else r'
  }

  /** The writer a handshake presented is unknown or retired: a number's tail moves on. */
  function Turned(c: Chain, r: Replica, request: Request): Replica {
    if request.AskNumber? then CarryToLive(c, r, Number(request.number)) else r
  }

  /** A settled number steps aside for the bind that waited on it. */
  function FinishTail(r: Replica, held: bool): Replica {
    if held && r.bound.Some? && r.bound.value.Number? && r.bound.value in r.queues && !HasTail(r.queues, r.bound.value) then
      RetireNumber(r, r.bound.value)
    else r
  }

  function SettleBound(r: Replica, s: nat, held: bool): Replica {
    if r.bound.None? then r else FinishTail(Remove(r, r.bound.value, s), held)
  }

  /** The members of a set in some order, each once. */
  ghost function Listing(s: set<WriterRef>): (r: seq<WriterRef>)
    ensures NoRepeats(r)
    ensures forall w :: w in r <==> w in s
    decreases |s|
  {
    if s == {} then []
    else
      var w :| w in s;
      [w] + Listing(s - {w})
  }

  ghost function Devices(q: Queues): seq<WriterRef> { Listing(set w | w in q && w.Device?) }

  ghost function Numbers(q: Queues): seq<WriterRef> { Listing(set w | w in q && w.Number?) }

  /** The device keys a revocation or a refused bind excludes. */
  ghost function Excluded(r: Replica, cert: Option<Digest>): seq<WriterRef> {
    if Devices(r.queues) == [] && cert.Some? then [Device(cert.value)] else Devices(r.queues)
  }

  /** The dead writers' tails moved to `target`, and a connection bound to a device moved with them. */
  function ExcludeTo(c: Chain, r: Replica, dead: seq<WriterRef>, target: WriterRef): Replica {
    match CarryTo(c, r, dead, target)
    case None => r
    case Some(r') => r'.(bound := if r.bound.Some? && r.bound.value.Device? then Some(target) else r.bound)
  }

  ghost function Exclude(c: Chain, r: Replica, cert: Option<Digest>): Replica {
    ExcludeTo(c, r, Excluded(r, cert), NumberOrUnissued(r.queues))
  }

  /** A fatal writer error retires a bound device, and moves the tail of a bound number on. */
  ghost function Fatal(c: Chain, r: Replica, cert: Option<Digest>): Replica {
    if r.bound.None? then r
    else if r.bound.value.Device? then Exclude(c, r, cert)
    else CarryToLive(c, r, r.bound.value)
  }

  /**
   A bind answered. A frontier the storage cannot hold is refused after memory took it, and
   leaves the connection as it was bound.
   */
  ghost function BindTo(c: Chain, r: Replica, key: Digest, frontier: nat): Replica {
    if key in r.retired then r
    else if !Storable(Raised(At(r.queues, Device(key)), frontier)) then Overrun(r, Device(key), frontier)
    else
      var r1 := Raise(Ensure(r, Device(key)), Device(key), frontier).(bound := Some(Device(key)));
      match CarryTo(c, r1, Numbers(r1.queues), Device(key))
      case None => r1
      case Some(r') => r'
  }

  /** A frontier past the storage integer, in memory only. */
  function Overrun(r: Replica, w: WriterRef, frontier: nat): Replica {
    r.(queues := r.queues[w := At(r.queues, w).(nextSeq := Raised(At(r.queues, w), frontier))])
  }

  function ArchivedOrigin(a: Archived): Option<Provenance> {
    if a.provenance.Some? then a.provenance
    else if IsReal(a.writer) then Some(Provenance(a.writer, a.seqNo))
    else None
  }

  function AppendAll(c: Chain, r: Replica, w: WriterRef, archive: seq<Archived>): Replica
    decreases |archive|
  {
    if archive == [] then r
    else match Append(c, r, w, archive[0].changeset, ArchivedOrigin(archive[0]))
      case None => r
      case Some(r') => AppendAll(c, r', w, archive[1..])
  }

  function Retirable(archive: seq<Archived>): set<WriterRef> {
    set a | a in archive && IsReal(a.writer) :: a.writer
  }

  /** The replica ready to take an archive, and the writer that takes it. */
  function ReadyToRestore(c: Chain, r: Replica, cert: Option<Digest>, archive: seq<Archived>): Option<(Replica, WriterRef)> {
    var current := ChooseWriter(r, cert);
    var r1 := r.(disk := r.disk.(retires := r.disk.retires + Retirable(archive)));
    if current in Retirable(archive) then
      var live := TailTarget(r.queues, current);
      (match CarryTo(c, r1, [current], live)
       case None => None
       case Some(r2) => Some((r2, live)))
    else Some((r1, current))
  }

  function Restored(c: Chain, r: Replica, cert: Option<Digest>, archive: seq<Archived>): Replica {
    if archive == [] then r
    else match ReadyToRestore(c, r, cert, archive)
      case None => r.(disk := r.disk.(retires := r.disk.retires + Retirable(archive)))
      case Some((r', w)) => AppendAll(c, r', w, archive)
  }

  function Pushed(c: Chain, r: Replica, cert: Option<Digest>, changeset: Bytes): Replica {
    match Append(c, r, ChooseWriter(r, cert), changeset, None)
    case None => r
    case Some(r') => r'
  }

  function Attached(c: Chain, r: Replica, cert: Option<Digest>, standing: bool, keys: bool, answer: Answer): Replica {
    match answer
    case Lost => r
    case Refused => Turned(c, r, Handshake(r, cert, standing))
    case Acked(grant) =>
      match Connect(c, r, cert, standing, keys, grant)
      case None => r
      case Some(r') => r'
  }

  function KeysCame(r: Replica, cert: Option<Digest>, standing: bool): Replica {
    if r.connected then PlanBind(r, cert, standing, true) else r
  }

  /** Always true, and a trigger as `Unfold` is. */
  ghost predicate Stepped(u: int) { true }

  /**
   The event takes `r` to `r'`. Each transition is closed by itself: a proof over a trace passes
   `Takes` along, and one about an event asserts `Stepped(0)` and unfolds that transition alone.
   */
  ghost predicate Takes(c: Chain, r: Replica, e: Event, r': Replica) {
    match e
    case Push(cert, changeset) => forall u {:trigger Stepped(u)} :: Stepped(u) ==> r' == Pushed(c, r, cert, changeset)
    case Attach(cert, standing, keys, answer) =>
      forall u {:trigger Stepped(u)} :: Stepped(u) ==> r' == Attached(c, r, cert, standing, keys, answer)
    case Applied(s, held) => forall u {:trigger Stepped(u)} :: Stepped(u) ==> r' == SettleBound(r, s, held)
    case Refuse(s, held) => forall u {:trigger Stepped(u)} :: Stepped(u) ==> r' == SettleBound(r, s, held)
    case KeysArrive(cert, standing) => forall u {:trigger Stepped(u)} :: Stepped(u) ==> r' == KeysCame(r, cert, standing)
    case BindAnswered(key, frontier) => forall u {:trigger Stepped(u)} :: Stepped(u) ==> r' == BindTo(c, r, key, frontier)
    case BindRefused(cert) => forall u {:trigger Stepped(u)} :: Stepped(u) ==> r' == Exclude(c, r, cert)
    case WriterFatal(cert) => forall u {:trigger Stepped(u)} :: Stepped(u) ==> r' == Fatal(c, r, cert)
    case DeviceRevoked(cert) => forall u {:trigger Stepped(u)} :: Stepped(u) ==> r' == Exclude(c, r, cert)
    case Resend => forall u {:trigger Stepped(u)} :: Stepped(u) ==> r' == r
    case Restore(cert, archive) => forall u {:trigger Stepped(u)} :: Stepped(u) ==> r' == Restored(c, r, cert, archive)
    case RetireAnswered(w) =>
      forall u {:trigger Stepped(u)} :: Stepped(u) ==> r' == r.(disk := r.disk.(retires := r.disk.retires - {w}))
    case Disconnect => forall u {:trigger Stepped(u)} :: Stepped(u) ==> r' == r.(bound := None, connected := false)
    case Die => forall u {:trigger Stepped(u)} :: Stepped(u) ==> r' == Restart(r)
  }

  // ---- what a single event does ----

  lemma TookPush(c: Chain, r: Replica, cert: Option<Digest>, changeset: Bytes, r': Replica)
    requires Takes(c, r, Push(cert, changeset), r')
    ensures r' == Pushed(c, r, cert, changeset)
  {
    assert Stepped(0);
  }

  lemma TookAttach(c: Chain, r: Replica, cert: Option<Digest>, standing: bool, keys: bool, answer: Answer, r': Replica)
    requires Takes(c, r, Attach(cert, standing, keys, answer), r')
    ensures r' == Attached(c, r, cert, standing, keys, answer)
  {
    assert Stepped(0);
  }

  lemma TookBind(c: Chain, r: Replica, key: Digest, frontier: nat, r': Replica)
    requires Takes(c, r, BindAnswered(key, frontier), r')
    ensures r' == BindTo(c, r, key, frontier)
  {
    assert Stepped(0);
  }

  lemma TookRevocation(c: Chain, r: Replica, cert: Option<Digest>, r': Replica)
    requires Takes(c, r, DeviceRevoked(cert), r')
    ensures r' == Exclude(c, r, cert)
  {
    assert Stepped(0);
  }

  lemma TookFatal(c: Chain, r: Replica, cert: Option<Digest>, r': Replica)
    requires Takes(c, r, WriterFatal(cert), r')
    ensures r' == Fatal(c, r, cert)
  {
    assert Stepped(0);
  }

  lemma TookDeath(c: Chain, r: Replica, r': Replica)
    requires Takes(c, r, Die, r')
    ensures r' == Restart(r)
  {
    assert Stepped(0);
  }

  lemma TookKeys(c: Chain, r: Replica, cert: Option<Digest>, standing: bool, r': Replica)
    requires Takes(c, r, KeysArrive(cert, standing), r')
    ensures r' == KeysCame(r, cert, standing)
  {
    assert Stepped(0);
  }

  lemma TookBindRefusal(c: Chain, r: Replica, cert: Option<Digest>, r': Replica)
    requires Takes(c, r, BindRefused(cert), r')
    ensures r' == Exclude(c, r, cert)
  {
    assert Stepped(0);
  }

  lemma TookNothing(c: Chain, r: Replica, e: Event, r': Replica)
    requires Takes(c, r, e, r') && (e.Resend? || e.RetireAnswered? || e.Disconnect?)
    ensures e.Resend? ==> r' == r
    ensures e.RetireAnswered? ==> r' == r.(disk := r.disk.(retires := r.disk.retires - {e.writer}))
    ensures e.Disconnect? ==> r' == r.(bound := None, connected := false)
  {
    assert Stepped(0);
  }

  lemma TookAnswer(c: Chain, r: Replica, e: Event, r': Replica)
    requires Takes(c, r, e, r') && (e.Applied? || e.Refuse?)
    ensures r' == SettleBound(r, e.seqNo, e.held)
  {
    assert Stepped(0);
  }

  lemma TookRestore(c: Chain, r: Replica, cert: Option<Digest>, archive: seq<Archived>, r': Replica)
    requires Takes(c, r, Restore(cert, archive), r')
    ensures r' == Restored(c, r, cert, archive)
  {
    assert Stepped(0);
  }

  /** The mutations an event puts on the wire. */
  ghost function Sent(c: Chain, r: Replica, e: Event): set<(WriterRef, nat)> {
    match e
    case Push(cert, changeset) =>
      var w := ChooseWriter(r, cert);
      if r.connected && r.bound == Some(w) && Append(c, r, w, changeset, None).Some? then {(w, At(r.queues, w).nextSeq)} else {}
    case Attach(cert, standing, keys, Acked(grant)) =>
      if Connect(c, r, cert, standing, keys, grant).Some? then BoundTail(Connect(c, r, cert, standing, keys, grant).value) else {}
    case BindAnswered(key, frontier) =>
      if key in r.retired || !Storable(Raised(At(r.queues, Device(key)), frontier)) then {} else BoundTail(BindTo(c, r, key, frontier))
    case Resend => BoundTail(r)
    case _ => {}
  }

  /** Everything the bound writer still has pending, when there is a wire to put it on. */
  function BoundTail(r: Replica): set<(WriterRef, nat)> {
    if r.connected && r.bound.Some? && r.bound.value in r.queues then
      set s | s in r.queues[r.bound.value].pending :: (r.bound.value, s)
    else {}
  }

  /**
   What the runs assume of the server: it issues only numbers it never issued before, and its
   frontiers are integers the storage holds.
   */
  ghost predicate Sane(r: Replica, e: Event) {
    match e
    case Attach(cert, standing, _, Acked(Some(grant))) =>
      && Storable(grant.frontier + 1)
      && (Handshake(r, cert, standing).AskIssue? ==> grant.number !in r.history.issued)
    case BindAnswered(_, frontier) => Storable(frontier + 1)
    case _ => true
  }

  // ---- every step keeps the invariant ----

  /** What a transition owes: the invariant, and nothing undone. */
  ghost predicate Good(c: Chain, r: Replica, r': Replica) { Inv(c, r') && Onward(r, r') }

  lemma GoodComposes(c: Chain, r: Replica, r1: Replica, r2: Replica)
    requires Good(c, r, r1) && Good(c, r1, r2)
    ensures Good(c, r, r2)
  {
    OnwardComposes(r, r1, r2);
  }

  /** The connection's standing and the owed retirements are no part of the invariant. */
  lemma GoodAside(c: Chain, r: Replica, bound: Option<WriterRef>, connected: bool, retires: set<WriterRef>)
    requires Inv(c, r)
    ensures Good(c, r, r.(bound := bound, connected := connected, disk := r.disk.(retires := retires)))
  {
    var r' := r.(bound := bound, connected := connected, disk := r.disk.(retires := retires));
    OnwardStays(r);
    assert Onward(r, r') <==> Onward(r, r);
  }

  lemma GoodAppend(c: Chain, r: Replica, w: WriterRef, changeset: Bytes, origin: Option<Provenance>)
    requires Inv(c, r) && MayOwn(r.queues, r.retired, w) && Append(c, r, w, changeset, origin).Some?
    ensures Good(c, r, Append(c, r, w, changeset, origin).value)
  {
    AppendInv(c, r, w, changeset, origin);
    AppendOnward(c, r, w, changeset, origin);
  }

  lemma GoodPush(c: Chain, r: Replica, cert: Option<Digest>, changeset: Bytes)
    requires Inv(c, r)
    ensures Good(c, r, Pushed(c, r, cert, changeset))
  {
    OnwardStays(r);
    ChosenMayOwn(r, cert);
    if Append(c, r, ChooseWriter(r, cert), changeset, None).Some? {
      GoodAppend(c, r, ChooseWriter(r, cert), changeset, None);
    }
  }

  lemma SentByPush(c: Chain, r: Replica, cert: Option<Digest>, changeset: Bytes)
    ensures var w := ChooseWriter(r, cert);
            Sent(c, r, Push(cert, changeset)) ==
            if r.connected && r.bound == Some(w) && Append(c, r, w, changeset, None).Some? then {(w, At(r.queues, w).nextSeq)} else {}
  {}

  lemma GoodCarry(c: Chain, r: Replica, dead: seq<WriterRef>, target: WriterRef)
    requires Inv(c, r) && NoRepeats(dead) && target !in dead && CarryTo(c, r, dead, target).Some?
    requires MayOwn(Without(r.queues, dead), r.retired + KeysOf(dead), target)
    ensures Good(c, r, CarryTo(c, r, dead, target).value)
  {
    CarryInv(c, r, dead, target);
    InvHolds(c, r);
    CarryHistory(c, r, dead, target);
    CarryOnward(c, r, dead, target);
  }

  lemma GoodEnsure(c: Chain, r: Replica, w: WriterRef)
    requires Inv(c, r) && (w in r.queues || (w.Device? && w.key !in r.retired))
    ensures Good(c, r, Ensure(r, w))
  {
    EnsureInv(c, r, w);
    EnsureOnward(c, r, w);
  }

  lemma GoodRaise(c: Chain, r: Replica, w: WriterRef, frontier: nat)
    requires Inv(c, r) && Storable(frontier + 1)
    ensures Good(c, r, Raise(r, w, frontier))
  {
    RaiseInv(c, r, w, frontier);
    InvHolds(c, r);
    RaiseOnward(r, w, frontier);
  }

  lemma TailTargetOwns(q: Queues, retired: set<Digest>, dead: WriterRef)
    requires OneNumber(q) && IsReal(dead)
    ensures TailTarget(q, dead) != dead
    ensures MayOwn(Without(q, [dead]), retired, TailTarget(q, dead))
  {}

  lemma GoodSelfCarry(c: Chain, r: Replica, w: WriterRef)
    requires Inv(c, r) && CarryTo(c, r, [w], w).Some?
    ensures Good(c, r, CarryTo(c, r, [w], w).value)
    ensures Good(c, r, Restart(CarryTo(c, r, [w], w).value))
  {
    var r1 := CarryTo(c, r, [w], w).value;
    SelfCarryInv(c, r, [w], w);
    SelfCarryOnward(c, r, [w], w);
    RestartInv(c, r1);
    RestartOnward(c, r1);
    GoodComposes(c, r, r1, Restart(r1));
  }

  lemma TailTargetApart(q: Queues, retired: set<Digest>, dead: WriterRef)
    requires OneNumber(q) && TailTarget(q, dead) != dead
    ensures MayOwn(Without(q, [dead]), retired, TailTarget(q, dead))
  {}

  lemma GoodCarryToLive(c: Chain, r: Replica, dead: WriterRef)
    requires Inv(c, r)
    ensures Good(c, r, CarryToLive(c, r, dead))
  {
    var target := TailTarget(r.queues, dead);
    OnwardStays(r);
    if CarryTo(c, r, [dead], target).Some? {
      if target == dead {
        GoodSelfCarry(c, r, dead);
      } else {
        assert OneNumber(r.queues) by {
          InvHolds(c, r);
        }
        TailTargetApart(r.queues, r.retired + KeysOf([dead]), dead);
        GoodCarry(c, r, [dead], target);
      }
    }
  }

  lemma ChosenMayOwn(r: Replica, cert: Option<Digest>)
    ensures MayOwn(r.queues, r.retired, ChooseWriter(r, cert))
  {}

  lemma AskedIssueAlone(r: Replica, cert: Option<Digest>, standing: bool)
    requires OneNumber(r.queues) && Handshake(r, cert, standing).AskIssue?
    ensures forall v :: v in r.queues && v.Number? ==> v == UNISSUED
  {}

  /**
   A device handshake is presented only when no number queue holds a tail, so no tail waits
   behind a device's later entries. A fresh number is asked for only when none is held.
   */
  lemma HandshakeStrandsNoTail(r: Replica, cert: Option<Digest>, standing: bool)
    requires OneNumber(r.queues)
    ensures Handshake(r, cert, standing).AskDevice? ==> forall w :: w in r.queues && w.Number? ==> r.queues[w].pending == map[]
    ensures Handshake(r, cert, standing).AskIssue? ==> forall w :: w in r.queues && w.Number? ==> w == UNISSUED
    ensures HasTail(r.queues, UNISSUED) ==> Handshake(r, cert, standing).AskIssue?
  {
    forall w | w in r.queues && w.Number? && Handshake(r, cert, standing).AskDevice? ensures r.queues[w].pending == map[] {
      if IsReal(w) {
        assert NumberIdentity(r.queues).Some?;
      }
    }
  }

  lemma GoodGranted(c: Chain, r: Replica, request: Request, grant: Option<Grant>, cert: Option<Digest>, standing: bool)
    requires Inv(c, r) && request == Handshake(r, cert, standing) && Granted(c, r, request, grant, cert).Some?
    requires request.AskIssue? && grant.Some? ==> grant.value.number !in r.history.issued
    ensures Good(c, r, Granted(c, r, request, grant, cert).value.0)
    ensures Granted(c, r, request, grant, cert).value.1.Some? ==> Granted(c, r, request, grant, cert).value.1.value.Number?
  {
    OnwardStays(r);
    match request
    case AskIssue =>
      assert OneNumber(r.queues) by {
        InvHolds(c, r);
      }
      AskedIssueAlone(r, cert, standing);
      IssueInv(c, r, grant.value.number);
      IssueOnward(c, r, grant.value.number);
    case AskNumber(n) =>
    case AskDevice =>
      assert KeysOf([UNISSUED]) == {};
      GoodCarry(c, r, [UNISSUED], Device(cert.value));
  }

  lemma GoodConnect(c: Chain, r: Replica, cert: Option<Digest>, standing: bool, keys: bool, grant: Option<Grant>)
    requires Inv(c, r) && Connect(c, r, cert, standing, keys, grant).Some?
    requires grant.Some? ==> Storable(grant.value.frontier + 1)
    requires Handshake(r, cert, standing).AskIssue? && grant.Some? ==> grant.value.number !in r.history.issued
    ensures Good(c, r, Connect(c, r, cert, standing, keys, grant).value)
  {
    GoodGranted(c, r, Handshake(r, cert, standing), grant, cert, standing);
    var (r1, bound) := Granted(c, r, Handshake(r, cert, standing), grant, cert).value;
    var r2 := r1.(bound := bound, connected := true);
    GoodAside(c, r1, bound, true, r1.disk.retires);
    GoodComposes(c, r, r1, r2);
    GoodPlanBind(c, r2, cert, standing, keys);
    var r3 := PlanBind(r2, cert, standing, keys);
    GoodComposes(c, r, r2, r3);
    if bound.Some? && bound.value.Number? && grant.Some? {
      GoodRaise(c, r3, bound.value, grant.value.frontier);
      GoodComposes(c, r, r3, Raise(r3, bound.value, grant.value.frontier));
    }
  }

  lemma GoodPlanBind(c: Chain, r: Replica, cert: Option<Digest>, standing: bool, keys: bool)
    requires Inv(c, r)
    ensures Good(c, r, PlanBind(r, cert, standing, keys))
  {
    OnwardStays(r);
    if Bindable(r, cert, standing) {
      GoodEnsure(c, r, Device(cert.value));
    }
  }

  lemma GoodSettle(c: Chain, r: Replica, s: nat, held: bool)
    requires Inv(c, r)
    ensures Good(c, r, SettleBound(r, s, held))
  {
    OnwardStays(r);
    if r.bound.Some? {
      var r1 := Remove(r, r.bound.value, s);
      RemoveInv(c, r, r.bound.value, s);
      RemoveOnward(c, r, r.bound.value, s);
      if r.bound.value.Number? {
        RetireNumberInv(c, r1, r.bound.value);
        RetireNumberOnward(c, r1, r.bound.value);
        GoodComposes(c, r, r1, RetireNumber(r1, r.bound.value));
      }
    }
  }

  lemma ExcludedApart(r: Replica, cert: Option<Digest>)
    ensures NoRepeats(Excluded(r, cert)) && NumberOrUnissued(r.queues) !in Excluded(r, cert)
  {
    assert forall w :: w in Excluded(r, cert) ==> w.Device?;
  }

  lemma ExcludedOwns(r: Replica, cert: Option<Digest>)
    requires OneNumber(r.queues)
    ensures MayOwn(Without(r.queues, Excluded(r, cert)), r.retired + KeysOf(Excluded(r, cert)), NumberOrUnissued(r.queues))
  {
    assert forall w :: w in Excluded(r, cert) ==> w.Device?;
  }

  lemma GoodRebound(c: Chain, r: Replica, r1: Replica, bound: Option<WriterRef>)
    requires Good(c, r, r1)
    ensures Good(c, r, r1.(bound := bound))
  {
    GoodAside(c, r1, bound, r1.connected, r1.disk.retires);
    GoodComposes(c, r, r1, r1.(bound := bound));
  }

  lemma GoodExcludeTo(c: Chain, r: Replica, dead: seq<WriterRef>, target: WriterRef)
    requires Inv(c, r) && NoRepeats(dead) && target !in dead
    requires MayOwn(Without(r.queues, dead), r.retired + KeysOf(dead), target)
    ensures Good(c, r, ExcludeTo(c, r, dead, target))
  {
    OnwardStays(r);
    if CarryTo(c, r, dead, target).Some? {
      GoodCarry(c, r, dead, target);
      GoodRebound(c, r, CarryTo(c, r, dead, target).value, ExcludeTo(c, r, dead, target).bound);
    }
  }

  lemma GoodExclude(c: Chain, r: Replica, cert: Option<Digest>)
    requires Inv(c, r)
    ensures Good(c, r, Exclude(c, r, cert))
  {
    assert OneNumber(r.queues) by {
      InvHolds(c, r);
    }
    ExcludedApart(r, cert);
    ExcludedOwns(r, cert);
    GoodExcludeTo(c, r, Excluded(r, cert), NumberOrUnissued(r.queues));
  }

  lemma GoodFatal(c: Chain, r: Replica, cert: Option<Digest>)
    requires Inv(c, r)
    ensures Good(c, r, Fatal(c, r, cert))
  {
    if r.bound.None? {
      OnwardStays(r);
    } else if r.bound.value.Device? {
      GoodExclude(c, r, cert);
    } else {
      GoodCarryToLive(c, r, r.bound.value);
    }
  }

  lemma GoodBindTo(c: Chain, r: Replica, key: Digest, frontier: nat)
    requires Inv(c, r) && Storable(frontier + 1)
    ensures Good(c, r, BindTo(c, r, key, frontier))
  {
    OnwardStays(r);
    assert QueueOk(At(r.queues, Device(key))) by {
      InvHolds(c, r);
    }
    if key !in r.retired {
      var w := Device(key);
      var r1 := Ensure(r, w);
      GoodEnsure(c, r, w);
      var r2 := Raise(r1, w, frontier);
      GoodRaise(c, r1, w, frontier);
      GoodComposes(c, r, r1, r2);
      var r3 := r2.(bound := Some(w));
      GoodAside(c, r2, Some(w), r2.connected, r2.disk.retires);
      GoodComposes(c, r, r2, r3);
      if CarryTo(c, r3, Numbers(r3.queues), w).Some? {
        assert w in Without(r3.queues, Numbers(r3.queues));
        GoodCarry(c, r3, Numbers(r3.queues), w);
        GoodComposes(c, r, r3, CarryTo(c, r3, Numbers(r3.queues), w).value);
      }
    }
  }

  lemma AppendOwns(c: Chain, r: Replica, w: WriterRef, changeset: Bytes, origin: Option<Provenance>)
    requires Append(c, r, w, changeset, origin).Some?
    ensures var r' := Append(c, r, w, changeset, origin).value; MayOwn(r'.queues, r'.retired, w)
  {}

  lemma CarryOwns(c: Chain, r: Replica, dead: seq<WriterRef>, target: WriterRef)
    requires CarryTo(c, r, dead, target).Some? && target !in dead
    requires MayOwn(Without(r.queues, dead), r.retired + KeysOf(dead), target)
    ensures var r' := CarryTo(c, r, dead, target).value; MayOwn(r'.queues, r'.retired, target)
  {}

  lemma {:induction false} GoodAppendAll(c: Chain, r: Replica, w: WriterRef, archive: seq<Archived>)
    requires Inv(c, r) && MayOwn(r.queues, r.retired, w)
    ensures Good(c, r, AppendAll(c, r, w, archive))
    decreases |archive|
  {
    OnwardStays(r);
    if archive != [] && Append(c, r, w, archive[0].changeset, ArchivedOrigin(archive[0])).Some? {
      var r1 := Append(c, r, w, archive[0].changeset, ArchivedOrigin(archive[0])).value;
      GoodAppend(c, r, w, archive[0].changeset, ArchivedOrigin(archive[0]));
      AppendOwns(c, r, w, archive[0].changeset, ArchivedOrigin(archive[0]));
      GoodAppendAll(c, r1, w, archive[1..]);
      GoodComposes(c, r, r1, AppendAll(c, r1, w, archive[1..]));
    }
  }

  lemma GoodReadyCarry(c: Chain, r: Replica, current: WriterRef)
    requires Inv(c, r) && IsReal(current) && CarryTo(c, r, [current], TailTarget(r.queues, current)).Some?
    ensures var r' := CarryTo(c, r, [current], TailTarget(r.queues, current)).value;
            Good(c, r, r') && MayOwn(r'.queues, r'.retired, TailTarget(r.queues, current))
  {
    var live := TailTarget(r.queues, current);
    InvHolds(c, r);
    TailTargetOwns(r.queues, r.retired + KeysOf([current]), current);
    GoodCarry(c, r, [current], live);
    CarryOwns(c, r, [current], live);
  }

  lemma GoodReady(c: Chain, r: Replica, cert: Option<Digest>, archive: seq<Archived>)
    requires Inv(c, r) && ReadyToRestore(c, r, cert, archive).Some?
    ensures var (r', w) := ReadyToRestore(c, r, cert, archive).value;
            Good(c, r, r') && MayOwn(r'.queues, r'.retired, w)
  {
    var current := ChooseWriter(r, cert);
    var r1 := r.(disk := r.disk.(retires := r.disk.retires + Retirable(archive)));
    GoodAside(c, r, r.bound, r.connected, r1.disk.retires);
    if current in Retirable(archive) {
      GoodReadyCarry(c, r1, current);
      GoodComposes(c, r, r1, CarryTo(c, r1, [current], TailTarget(r.queues, current)).value);
    } else {
      ChosenMayOwn(r, cert);
    }
  }

  lemma GoodRestored(c: Chain, r: Replica, cert: Option<Digest>, archive: seq<Archived>)
    requires Inv(c, r)
    ensures Good(c, r, Restored(c, r, cert, archive))
  {
    OnwardStays(r);
    GoodAside(c, r, r.bound, r.connected, r.disk.retires + Retirable(archive));
    if ReadyToRestore(c, r, cert, archive).Some? {
      var (r1, w) := ReadyToRestore(c, r, cert, archive).value;
      GoodReady(c, r, cert, archive);
      GoodAppendAll(c, r1, w, archive);
      GoodComposes(c, r, r1, AppendAll(c, r1, w, archive));
    }
  }

  lemma GoodAttach(c: Chain, r: Replica, cert: Option<Digest>, standing: bool, keys: bool, answer: Answer)
    requires Inv(c, r) && Sane(r, Attach(cert, standing, keys, answer))
    ensures Good(c, r, Attached(c, r, cert, standing, keys, answer))
  {
    OnwardStays(r);
    if answer.Refused? && Handshake(r, cert, standing).AskNumber? {
      GoodCarryToLive(c, r, Number(Handshake(r, cert, standing).number));
    } else if answer.Acked? && Connect(c, r, cert, standing, keys, answer.grant).Some? {
      GoodConnect(c, r, cert, standing, keys, answer.grant);
    }
  }

  lemma GoodKeys(c: Chain, r: Replica, cert: Option<Digest>, standing: bool)
    requires Inv(c, r)
    ensures Good(c, r, KeysCame(r, cert, standing))
  {
    OnwardStays(r);
    GoodPlanBind(c, r, cert, standing, true);
  }

  lemma GoodRestart(c: Chain, r: Replica)
    requires Inv(c, r)
    ensures Good(c, r, Restart(r))
  {
    RestartInv(c, r);
    RestartOnward(c, r);
  }

  lemma GoodNothing(c: Chain, r: Replica, e: Event, r': Replica)
    requires Inv(c, r) && Takes(c, r, e, r') && (e.Resend? || e.RetireAnswered? || e.Disconnect?)
    ensures Good(c, r, r')
  {
    TookNothing(c, r, e, r');
    match e
    case Resend => OnwardStays(r);
    case RetireAnswered(w) => GoodAside(c, r, r.bound, r.connected, r.disk.retires - {w});
    case Disconnect => GoodAside(c, r, None, false, r.disk.retires);
  }

  /** Every event of a sane server keeps the invariant and undoes nothing. */
  lemma StepGood(c: Chain, r: Replica, e: Event, r': Replica)
    requires Inv(c, r) && Sane(r, e) && Takes(c, r, e, r')
    ensures Good(c, r, r')
  {
    match e
    case Push(cert, changeset) =>
      TookPush(c, r, cert, changeset, r');
      GoodPush(c, r, cert, changeset);
    case Attach(cert, standing, keys, answer) =>
      TookAttach(c, r, cert, standing, keys, answer, r');
      GoodAttach(c, r, cert, standing, keys, answer);
    case Applied(s, held) =>
      TookAnswer(c, r, e, r');
      GoodSettle(c, r, s, held);
    case Refuse(s, held) =>
      TookAnswer(c, r, e, r');
      GoodSettle(c, r, s, held);
    case KeysArrive(cert, standing) =>
      TookKeys(c, r, cert, standing, r');
      GoodKeys(c, r, cert, standing);
    case BindAnswered(key, frontier) =>
      TookBind(c, r, key, frontier, r');
      GoodBindTo(c, r, key, frontier);
    case BindRefused(cert) =>
      TookBindRefusal(c, r, cert, r');
      GoodExclude(c, r, cert);
    case WriterFatal(cert) =>
      TookFatal(c, r, cert, r');
      GoodFatal(c, r, cert);
    case DeviceRevoked(cert) =>
      TookRevocation(c, r, cert, r');
      GoodExclude(c, r, cert);
    case Restore(cert, archive) =>
      TookRestore(c, r, cert, archive, r');
      GoodRestored(c, r, cert, archive);
    case Die =>
      TookDeath(c, r, r');
      GoodRestart(c, r);
    case _ => GoodNothing(c, r, e, r');
  }
}
