/**
 Local writes over a resync. The clear takes the rows of pending writes with it, so once the
 new snapshot is in, the pending changesets are applied again in append order under a policy
 that resolves each conflict. A refused write is undone under a policy that resolves none.
 */
module Resync {
  import opened Common

  type Place = (string, Bytes)
  type Cells = map<string, Option<Bytes>>

  /** A replica: the rows standing at their table and key. */
  type Rows = map<Place, Cells>

  /** One captured change, with what it replaced. An update holds only the columns it changed. */
  datatype Op =
    | Insert(at: Place, cells: Cells)
    | Update(at: Place, was: Cells, now: Cells)
    | Delete(at: Place, was: Cells)

  type Changeset = seq<Op>

  datatype Conflict = Data | NotFound | Present
  datatype Action = Replace | Omit

  /** The re-apply's policy: the operation replaces whatever row it finds and is dropped where it finds none. */
  function ServerWins(c: Conflict): Action {
    match c case Data => Replace case Present => Replace case NotFound => Omit
  }

  /** The undo's policy: an operation that meets any conflict does nothing. */
  function RollbackOmit(c: Conflict): Action { Omit }

  function RowAt(rows: Rows, p: Place): Option<Cells> { if p in rows then Some(rows[p]) else None }

  function Put(rows: Rows, p: Place, r: Option<Cells>): Rows {
    if r.Some? then rows[p := r.value] else rows - {p}
  }

  /** The columns named hold these values. */
  predicate Agrees(r: Cells, was: Cells) { forall c :: c in was ==> c in r && r[c] == was[c] }

  /** The row an operation leaves where it found `r`, its conflicts resolved. */
  function Resolve(op: Op, r: Option<Cells>, resolve: Conflict -> Action): Option<Cells> {
    match op
    case Insert(_, cells) => if r.None? || resolve(Present).Replace? then Some(cells) else r
    case Update(_, was, now) =>
      if r.None? then r
      else if Agrees(r.value, was) || resolve(Data).Replace? then Some(r.value + now)
      else r
    case Delete(_, was) =>
      if r.None? then r
      else if r.value == was || resolve(Data).Replace? then None
      else r
  }

  function Perform(rows: Rows, op: Op, resolve: Conflict -> Action): Rows {
    Put(rows, op.at, Resolve(op, RowAt(rows, op.at), resolve))
  }

  function PerformAll(rows: Rows, ops: Changeset, resolve: Conflict -> Action): Rows
    decreases |ops|
  {
    if ops == [] then rows else PerformAll(Perform(rows, ops[0], resolve), ops[1..], resolve)
  }

  // ---- row by row ----

  /** What the operations on one row, in order, make of it. */
  function Effect(ops: Changeset, p: Place, r: Option<Cells>, resolve: Conflict -> Action): Option<Cells>
    decreases |ops|
  {
    if ops == [] then r
    else Effect(ops[1..], p, if ops[0].at == p then Resolve(ops[0], r, resolve) else r, resolve)
  }

  lemma {:induction false} RowsApart(rows: Rows, ops: Changeset, resolve: Conflict -> Action, p: Place)
    ensures RowAt(PerformAll(rows, ops, resolve), p) == Effect(ops, p, RowAt(rows, p), resolve)
    decreases |ops|
  {
    if ops != [] {
      RowsApart(Perform(rows, ops[0], resolve), ops[1..], resolve, p);
    }
  }

  lemma SameRows(a: Rows, b: Rows)
    requires forall p :: RowAt(a, p) == RowAt(b, p)
    ensures a == b
  {
    forall p ensures p in a <==> p in b {
      assert RowAt(a, p) == RowAt(b, p);
    }
    forall p | p in a ensures a[p] == b[p] {
      assert RowAt(a, p) == RowAt(b, p);
    }
  }

  /** Some operation of the list decides the row whatever stood there. */
  ghost predicate Decides(ops: Changeset, p: Place) {
    exists i :: 0 <= i < |ops| && ops[i].at == p && !ops[i].Update?
  }

  /**
   A row some pending insert or delete decides ends the same whatever the snapshot
   delivered there.
   */
  lemma {:induction false} DecidedRow(ops: Changeset, p: Place, r: Option<Cells>, s: Option<Cells>)
    requires Decides(ops, p)
    ensures Effect(ops, p, r, ServerWins) == Effect(ops, p, s, ServerWins)
    decreases |ops|
  {
    if ops[0].at != p || ops[0].Update? {
      var i :| 0 <= i < |ops| && ops[i].at == p && !ops[i].Update?;
      assert ops[1..][i - 1] == ops[i];
      DecidedRow(ops[1..], p,
                 if ops[0].at == p then Resolve(ops[0], r, ServerWins) else r,
                 if ops[0].at == p then Resolve(ops[0], s, ServerWins) else s);
    }
  }

  /** Pending updates alone overlay their columns, the later over the earlier. */
  function Overlay(ops: Changeset, p: Place): Cells
    decreases |ops|
  {
    if ops == [] then map[]
    else (if ops[0].at == p && ops[0].Update? then ops[0].now else map[]) + Overlay(ops[1..], p)
  }

  lemma Layered(r: Cells, first: Cells, rest: Cells)
    ensures (r + first) + rest == r + (first + rest)
    ensures r + map[] == r
  {}

  lemma UpdateOnly(ops: Changeset, p: Place)
    requires ops != [] && !Decides(ops, p)
    ensures (ops[0].at == p ==> ops[0].Update?) && !Decides(ops[1..], p)
  {
    forall i | 0 <= i < |ops| - 1 ensures !(ops[1..][i].at == p && !ops[1..][i].Update?) {
      assert ops[1..][i] == ops[i + 1];
    }
  }

  lemma {:induction false} UndecidedRow(ops: Changeset, p: Place, r: Option<Cells>)
    requires !Decides(ops, p)
    ensures Effect(ops, p, r, ServerWins) == if r.None? then None else Some(r.value + Overlay(ops, p))
    decreases |ops|
  {
    if ops == [] {
      if r.Some? {
        Layered(r.value, map[], map[]);
      }
    } else {
      UpdateOnly(ops, p);
      if ops[0].at == p && r.Some? {
        UndecidedRow(ops[1..], p, Some(r.value + ops[0].now));
        Layered(r.value, ops[0].now, Overlay(ops[1..], p));
      } else {
        UndecidedRow(ops[1..], p, r);
        if r.Some? {
          Layered(r.value, map[], Overlay(ops[1..], p));
        }
      }
    }
  }

  lemma EffectIdempotent(ops: Changeset, p: Place, r: Option<Cells>)
    ensures Effect(ops, p, Effect(ops, p, r, ServerWins), ServerWins) == Effect(ops, p, r, ServerWins)
  {
    if Decides(ops, p) {
      DecidedRow(ops, p, Effect(ops, p, r, ServerWins), r);
    } else {
      UndecidedRow(ops, p, r);
      UndecidedRow(ops, p, Effect(ops, p, r, ServerWins));
      if r.Some? {
        assert (r.value + Overlay(ops, p)) + Overlay(ops, p) == r.value + Overlay(ops, p);
      }
    }
  }

  // ---- the re-apply ----

  /** The pending changesets as one list of operations, in append order. */
  function Flatten(queued: seq<Changeset>): Changeset
    decreases |queued|
  {
    if queued == [] then [] else Flatten(queued[..|queued| - 1]) + queued[|queued| - 1]
  }

  function Reapplied(rows: Rows, queued: seq<Changeset>): Rows { PerformAll(rows, Flatten(queued), ServerWins) }

  lemma {:induction false} PerformConcat(rows: Rows, a: Changeset, b: Changeset, resolve: Conflict -> Action)
    ensures PerformAll(rows, a + b, resolve) == PerformAll(PerformAll(rows, a, resolve), b, resolve)
    decreases |a|
  {
    if a == [] {
      assert a + b == b;
    } else {
      assert (a + b)[1..] == a[1..] + b;
      PerformConcat(Perform(rows, a[0], resolve), a[1..], b, resolve);
    }
  }

  method ApplyChangeset(rows: Rows, ops: Changeset, resolve: Conflict -> Action) returns (r: Rows)
    ensures r == PerformAll(rows, ops, resolve)
  {
    r := rows;
    for i := 0 to |ops|
      invariant PerformAll(r, ops[i..], resolve) == PerformAll(rows, ops, resolve)
    {
      assert ops[i..][0] == ops[i] && ops[i..][1..] == ops[i + 1..];
      r := Perform(r, ops[i], resolve);
    }
  }

  /** Changeset by changeset in append order, in one transaction. */
  method ReapplyPending(rows: Rows, queued: seq<Changeset>) returns (r: Rows)
    ensures r == Reapplied(rows, queued)
  {
    r := rows;
    for i := 0 to |queued|
      invariant r == Reapplied(rows, queued[..i])
    {
      var upTo := queued[..i + 1];
      assert upTo[..|upTo| - 1] == queued[..i] && upTo[|upTo| - 1] == queued[i];
      PerformConcat(rows, Flatten(queued[..i]), queued[i], ServerWins);
      r := ApplyChangeset(r, queued[i], ServerWins);
    }
    assert queued[..|queued|] == queued;
  }

  /** However many snapshots end, re-applying has the effect of re-applying once. */
  lemma ReapplyIsIdempotent(rows: Rows, queued: seq<Changeset>)
    ensures Reapplied(Reapplied(rows, queued), queued) == Reapplied(rows, queued)
  {
    var ops := Flatten(queued);
    var once := PerformAll(rows, ops, ServerWins);
    forall p ensures RowAt(PerformAll(once, ops, ServerWins), p) == RowAt(once, p) {
      RowsApart(rows, ops, ServerWins, p);
      RowsApart(once, ops, ServerWins, p);
      EffectIdempotent(ops, p, RowAt(rows, p));
    }
    SameRows(PerformAll(once, ops, ServerWins), once);
  }

  /** Where a pending insert or delete decides a row, no snapshot shows through. Elsewhere only its untouched columns do. */
  lemma SnapshotShowsThrough(rows: Rows, other: Rows, queued: seq<Changeset>, p: Place)
    ensures Decides(Flatten(queued), p) ==> RowAt(Reapplied(rows, queued), p) == RowAt(Reapplied(other, queued), p)
    ensures !Decides(Flatten(queued), p) ==>
              RowAt(Reapplied(rows, queued), p) ==
              if p in rows then Some(rows[p] + Overlay(Flatten(queued), p)) else None
  {
    var ops := Flatten(queued);
    RowsApart(rows, ops, ServerWins, p);
    RowsApart(other, ops, ServerWins, p);
    if Decides(ops, p) {
      DecidedRow(ops, p, RowAt(rows, p), RowAt(other, p));
    } else {
      UndecidedRow(ops, p, RowAt(rows, p));
    }
  }

  // ---- rollback ----

  function Invert(op: Op): Op {
    match op
    case Insert(p, cells) => Delete(p, cells)
    case Update(p, was, now) => Update(p, now, was)
    case Delete(p, was) => Insert(p, was)
  }

  function InvertAll(ops: Changeset): (r: Changeset)
    ensures |r| == |ops| && forall i :: 0 <= i < |ops| ==> r[i] == Invert(ops[i])
  {
    seq(|ops|, i requires 0 <= i < |ops| => Invert(ops[i]))
  }

  /** A changeset records each row once. */
  ghost predicate OnePerRow(ops: Changeset) { forall i, j :: 0 <= i < j < |ops| ==> ops[i].at != ops[j].at }

  /** The change was made where `r` stood. An update names the same columns before and after. */
  predicate MadeAt(op: Op, r: Option<Cells>) {
    match op
    case Insert(_, _) => r.None?
    case Update(_, was, now) => r.Some? && Agrees(r.value, was) && was.Keys == now.Keys
    case Delete(_, was) => r == Some(was)
  }

  /** The row as the change left it. */
  function Made(op: Op, r: Option<Cells>): Option<Cells> {
    match op
    case Insert(_, cells) => Some(cells)
    case Update(_, _, now) => if r.Some? then Some(r.value + now) else None
    case Delete(_, _) => None
  }

  lemma UndoneRow(op: Op, r: Option<Cells>)
    requires MadeAt(op, r)
    ensures Resolve(Invert(op), Made(op, r), RollbackOmit) == r
  {
    if op.Update? {
      assert (r.value + op.now) + op.was == r.value;
    }
  }

  /** A row the server has since taken elsewhere stays where the server put it. */
  lemma ServerRowStays(op: Op, r: Option<Cells>)
    requires match op
             case Insert(_, cells) => r != Some(cells)
             case Update(_, _, now) => r.None? || !Agrees(r.value, now)
             case Delete(_, _) => r.Some?
    ensures Resolve(Invert(op), r, RollbackOmit) == r
  {}

  lemma {:induction false} LoneEffect(ops: Changeset, i: nat, r: Option<Cells>, resolve: Conflict -> Action)
    requires OnePerRow(ops) && i < |ops|
    ensures Effect(ops, ops[i].at, r, resolve) == Resolve(ops[i], r, resolve)
    decreases |ops|
  {
    if i == 0 {
      forall j | 0 <= j < |ops| - 1 ensures ops[1..][j].at != ops[0].at {
        assert ops[1..][j] == ops[j + 1];
      }
      UntouchedRow(ops[1..], ops[0].at, Resolve(ops[0], r, resolve), resolve);
    } else {
      assert ops[1..][i - 1] == ops[i];
      LoneEffect(ops[1..], i - 1, r, resolve);
    }
  }

  lemma {:induction false} UntouchedRow(ops: Changeset, p: Place, r: Option<Cells>, resolve: Conflict -> Action)
    requires forall j :: 0 <= j < |ops| ==> ops[j].at != p
    ensures Effect(ops, p, r, resolve) == r
    decreases |ops|
  {
    if ops != [] {
      UntouchedRow(ops[1..], p, r, resolve);
    }
  }

  /** `rows` with the local write made in it. */
  ghost predicate Written(rows: Rows, ops: Changeset, after: Rows) {
    && OnePerRow(ops)
    && (forall i :: 0 <= i < |ops| ==> MadeAt(ops[i], RowAt(rows, ops[i].at)) && RowAt(after, ops[i].at) == Made(ops[i], RowAt(rows, ops[i].at)))
    && (forall p :: (forall i :: 0 <= i < |ops| ==> ops[i].at != p) ==> RowAt(after, p) == RowAt(rows, p))
  }

  lemma RolledBackRow(ops: Changeset, i: nat, after: Rows)
    requires OnePerRow(ops) && i < |ops|
    ensures RowAt(PerformAll(after, InvertAll(ops), RollbackOmit), ops[i].at) ==
            Resolve(Invert(ops[i]), RowAt(after, ops[i].at), RollbackOmit)
  {
    var inverse := InvertAll(ops);
    RowsApart(after, inverse, RollbackOmit, ops[i].at);
    LoneEffect(inverse, i, RowAt(after, ops[i].at), RollbackOmit);
  }

  lemma RolledBackElsewhere(ops: Changeset, p: Place, after: Rows)
    requires forall i :: 0 <= i < |ops| ==> ops[i].at != p
    ensures RowAt(PerformAll(after, InvertAll(ops), RollbackOmit), p) == RowAt(after, p)
  {
    RowsApart(after, InvertAll(ops), RollbackOmit, p);
    UntouchedRow(InvertAll(ops), p, RowAt(after, p), RollbackOmit);
  }

  /** A refused write with nothing landed on it since is undone exactly. */
  lemma RollbackUndoes(rows: Rows, ops: Changeset, after: Rows)
    requires Written(rows, ops, after)
    ensures PerformAll(after, InvertAll(ops), RollbackOmit) == rows
  {
    var back := PerformAll(after, InvertAll(ops), RollbackOmit);
    forall p ensures RowAt(back, p) == RowAt(rows, p) {
      if i :| 0 <= i < |ops| && ops[i].at == p {
        RolledBackRow(ops, i, after);
        UndoneRow(ops[i], RowAt(rows, p));
      } else {
        RolledBackElsewhere(ops, p, after);
      }
    }
    SameRows(back, rows);
  }
}
