/** The downgrade that renumbers conversation rounds per visit while the scenario-wide unique constraint stays live. */
module Migration {
  import opened Common
  import opened Json

  type Id = string

  datatype Row = Row(learner: int, session: Option<string>, scene: string, scenario: string, round: int, state: Json,
      createdAt: real)

  type Rows = map<Id, Row>

  datatype Visit = Visit(learner: int, session: string)

  function VisitOf(r: Row): Visit
    requires r.session.Some?
  {
    Visit(r.learner, r.session.value)
  }

  /** The five columns of the live constraint; rows without a session are exempt. */
  predicate Clash(a: Row, b: Row) {
    a.session.Some? && a.session == b.session && a.learner == b.learner && a.scene == b.scene
      && a.scenario == b.scenario && a.round == b.round
  }

  ghost predicate Live(rows: Rows) {
    forall x, y :: x in rows && y in rows && x != y ==> !Clash(rows[x], rows[y])
  }

  /** The constraint the downgrade restores: one row per visit and round. */
  ghost predicate OnePerVisitRound(rows: Rows) {
    forall x, y | x in rows && y in rows && x != y && rows[x].session.Some? && rows[y].session.Some? ::
      VisitOf(rows[x]) == VisitOf(rows[y]) ==> rows[x].round != rows[y].round
  }

  /** `ids` lists every row with a session once. */
  ghost predicate Lists(rows: Rows, ids: seq<Id>) {
    Unique(ids) && forall x :: x in ids <==> x in rows && rows[x].session.Some?
  }

  /** How many of the first `n` listed rows belong to the visit. */
  function Count(rows: Rows, ids: seq<Id>, n: nat, v: Visit): nat
    requires n <= |ids| && forall x | x in ids :: x in rows && rows[x].session.Some?
  {
    if n == 0 then 0 else Count(rows, ids, n - 1, v) + if VisitOf(rows[ids[n - 1]]) == v then 1 else 0
  }

  /** The rank of the `i`-th listed row in its visit, from 1. */
  function Rank(rows: Rows, ids: seq<Id>, i: nat): nat
    requires i < |ids| && forall x | x in ids :: x in rows && rows[x].session.Some?
  {
    Count(rows, ids, i + 1, VisitOf(rows[ids[i]]))
  }

  lemma {:induction false} CountGrows(rows: Rows, ids: seq<Id>, m: nat, n: nat, v: Visit)
    requires m <= n <= |ids| && forall x | x in ids :: x in rows && rows[x].session.Some?
    ensures Count(rows, ids, m, v) <= Count(rows, ids, n, v)
    decreases n
  {
    if m < n {
      CountGrows(rows, ids, m, n - 1, v);
    }
  }

  /** Ranks rise along a visit. */
  lemma RanksRise(rows: Rows, ids: seq<Id>, i: nat, j: nat)
    requires i < j < |ids| && forall x | x in ids :: x in rows && rows[x].session.Some?
    requires VisitOf(rows[ids[i]]) == VisitOf(rows[ids[j]])
    ensures 1 <= Rank(rows, ids, i) < Rank(rows, ids, j)
  {
    CountGrows(rows, ids, i + 1, j, VisitOf(rows[ids[i]]));
  }

  /** The ranks of a visit are 1 to the number of its rows, without a gap. */
  lemma {:induction false} RanksFill(rows: Rows, ids: seq<Id>, n: nat, v: Visit, k: nat)
    requires n <= |ids| && forall x | x in ids :: x in rows && rows[x].session.Some?
    requires 1 <= k <= Count(rows, ids, n, v)
    ensures exists i: nat :: i < n && VisitOf(rows[ids[i]]) == v && Rank(rows, ids, i) == k
  {
    if k <= Count(rows, ids, n - 1, v) {
      RanksFill(rows, ids, n - 1, v, k);
    } else {
      assert VisitOf(rows[ids[n - 1]]) == v && Rank(rows, ids, n - 1) == k;
    }
  }

  datatype Assignment = Assignment(id: Id, round: nat, state: Json)

  function Renumbered(state: Json, round: nat): Json {
    JObject((if state.JObject? then state.fields else map[])["conversation_round" := JInt(round)])
  }

  /** What every assignment must be. */
  ghost predicate Assigned(rows: Rows, ids: seq<Id>, out: seq<Assignment>)
    requires forall x | x in ids :: x in rows && rows[x].session.Some?
  {
    |out| <= |ids| && forall i :: 0 <= i < |out| ==>
      out[i] == Assignment(ids[i], Rank(rows, ids, i), Renumbered(rows[ids[i]].state, Rank(rows, ids, i)))
  }

  /** The first loop: one dictionary of ranks so far, one assignment per row. */
  method Assign(rows: Rows, ids: seq<Id>) returns (out: seq<Assignment>)
    requires forall x | x in ids :: x in rows && rows[x].session.Some?
    ensures Assigned(rows, ids, out) && |out| == |ids|
  {
    var ranks: map<Visit, nat> := map[];
    out := [];
    for n := 0 to |ids|
      invariant |out| == n && Assigned(rows, ids, out)
      invariant forall v: Visit :: Count(rows, ids, n, v) == if v in ranks then ranks[v] else 0
    {
      var row := rows[ids[n]];
      var v := VisitOf(row);
      var round := (if v in ranks then ranks[v] else 0) + 1;
      ranks := ranks[v := round];
      var state := if row.state.JObject? then row.state.fields else map[];
      state := state["conversation_round" := JInt(round)];
      out := out + [Assignment(ids[n], round, JObject(state))];
    }
  }

  /** A row's round after `m` stagings and `n` final writes. */
  function RoundAt(rows: Rows, ids: seq<Id>, m: nat, n: nat, i: nat): int
    requires i < |ids| && forall x | x in ids :: x in rows && rows[x].session.Some?
  {
    if i < n then Rank(rows, ids, i) else if i < m then -(|ids| + i + 1) else rows[ids[i]].round
  }

  /** The table after `m` stagings and `n` final writes: only rounds and states of listed rows differ. */
  ghost predicate Progressed(start: Rows, ids: seq<Id>, m: nat, n: nat, rows: Rows)
    requires forall x | x in ids :: x in start && start[x].session.Some?
  {
    && rows.Keys == start.Keys
    && (forall x | x in start && x !in ids :: rows[x] == start[x])
    && (forall i: nat | i < |ids| :: ids[i] in rows && rows[ids[i]] == start[ids[i]].(
          round := RoundAt(start, ids, m, n, i),
          state := if i < n then Renumbered(start[ids[i]].state, Rank(start, ids, i)) else start[ids[i]].state))
  }

  /** With positive rounds to start from, no step of either phase ever clashes: staged rounds are distinct negatives,
      untouched ones positive, final ones distinct within a visit and never mixed with untouched ones. */
  lemma StepsStayLive(start: Rows, ids: seq<Id>, m: nat, n: nat, rows: Rows)
    requires Lists(start, ids) && Live(start) && forall x | x in ids :: start[x].round >= 1
    requires n <= m <= |ids| && (n > 0 ==> m == |ids|) && Progressed(start, ids, m, n, rows)
    ensures Live(rows)
  {
    forall x, y | x in rows && y in rows && x != y ensures !Clash(rows[x], rows[y]) {
      if x in ids && y in ids {
        var i: nat :| i < |ids| && ids[i] == x;
        var j: nat :| j < |ids| && ids[j] == y;
        if VisitOf(start[x]) == VisitOf(start[y]) {
          if i < j { RanksRise(start, ids, i, j); } else { RanksRise(start, ids, j, i); }
        }
        assert !Clash(start[x], start[y]);
      }
    }
  }

  /** After both phases: one row per visit and round; within a visit the listed order decides. */
  lemma FinishedIsUnique(start: Rows, ids: seq<Id>, rows: Rows)
    requires Lists(start, ids) && Progressed(start, ids, |ids|, |ids|, rows)
    ensures OnePerVisitRound(rows)
  {
    forall x, y | x in rows && y in rows && x != y && rows[x].session.Some? && rows[y].session.Some?
      && VisitOf(rows[x]) == VisitOf(rows[y])
      ensures rows[x].round != rows[y].round
    {
      assert x in ids && y in ids;
      var i: nat :| i < |ids| && ids[i] == x;
      var j: nat :| j < |ids| && ids[j] == y;
      if i < j { RanksRise(start, ids, i, j); } else { RanksRise(start, ids, j, i); }
    }
  }

  /** The selection's order within a visit: by round, then by creation. */
  predicate Before(a: Row, b: Row) {
    a.round < b.round || (a.round == b.round && a.createdAt < b.createdAt)
  }

  ghost predicate InOrder(rows: Rows, ids: seq<Id>)
    requires forall x | x in ids :: x in rows && rows[x].session.Some?
  {
    forall i, j :: 0 <= i < j < |ids| && VisitOf(rows[ids[i]]) == VisitOf(rows[ids[j]]) ==>
      !Before(rows[ids[j]], rows[ids[i]])
  }

  /** Within a visit the earlier conversation keeps the smaller round. */
  lemma EarlierStaysFirst(start: Rows, ids: seq<Id>, rows: Rows, x: Id, y: Id)
    requires Lists(start, ids) && InOrder(start, ids) && Progressed(start, ids, |ids|, |ids|, rows)
    requires x in ids && y in ids && VisitOf(start[x]) == VisitOf(start[y]) && Before(start[x], start[y])
    ensures rows[x].round < rows[y].round
  {
    var i: nat :| i < |ids| && ids[i] == x;
    var j: nat :| j < |ids| && ids[j] == y;
    if i < j {
      RanksRise(start, ids, i, j);
    }
  }

  class Table {
    var rows: Rows

    constructor (rows: Rows)
      ensures this.rows == rows
    {
      this.rows := rows;
    }

    /** One UPDATE by primary key: refused, without effect, when the live constraint would break. */
    method Update(id: Id, row: Row) returns (ok: bool)
      requires id in rows && row.session == rows[id].session
      modifies this
      ensures ok <==> forall y :: y in old(rows) && y != id ==> !Clash(row, old(rows)[y])
      ensures rows == if ok then old(rows)[id := row] else old(rows)
    {
      if exists y | y in rows :: y != id && Clash(row, rows[y]) {
        return false;
      }
      rows := rows[id := row];
      return true;
    }

    /** `downgrade`: `ids` is the ordered selection. Every single update succeeds under the live constraint. */
    method Downgrade(ids: seq<Id>) returns (ok: bool)
      requires Lists(rows, ids) && Live(rows) && forall x | x in ids :: rows[x].round >= 1
      modifies this
      ensures ok
      ensures Live(rows) && OnePerVisitRound(rows)
      ensures Progressed(old(rows), ids, |ids|, |ids|, rows)
    {
      ghost var start := rows;
      var assignments := Assign(rows, ids);
      for k := 0 to |ids|
        invariant Progressed(start, ids, k, 0, rows)
      {
        var row := rows[ids[k]].(round := -(|ids| + k + 1));
        StageStep(start, ids, k, rows, row);
        var fine := Update(ids[k], row);
        assert fine;
      }
      for k := 0 to |ids|
        invariant Progressed(start, ids, |ids|, k, rows)
      {
        var row := rows[ids[k]].(round := assignments[k].round, state := assignments[k].state);
        FinalStep(start, ids, k, rows, row);
        var fine := Update(ids[k], row);
        assert fine;
      }
      StepsStayLive(start, ids, |ids|, |ids|, rows);
      FinishedIsUnique(start, ids, rows);
      ok := true;
    }
  }

  lemma NoClashWith(rows: Rows, id: Id, row: Row)
    requires id in rows && Live(rows[id := row])
    ensures forall y :: y in rows && y != id ==> !Clash(row, rows[y])
  {
    forall y | y in rows && y != id ensures !Clash(row, rows[y]) {
      var after := rows[id := row];
      assert after[id] == row && after[y] == rows[y];
    }
  }

  lemma StageStep(start: Rows, ids: seq<Id>, k: nat, rows: Rows, row: Row)
    requires Lists(start, ids) && Live(start) && (forall x | x in ids :: start[x].round >= 1)
    requires k < |ids| && Progressed(start, ids, k, 0, rows) && row == rows[ids[k]].(round := -(|ids| + k + 1))
    ensures Progressed(start, ids, k + 1, 0, rows[ids[k] := row])
    ensures forall y :: y in rows && y != ids[k] ==> !Clash(row, rows[y])
  {}

  lemma FinalStep(start: Rows, ids: seq<Id>, k: nat, rows: Rows, row: Row)
    requires Lists(start, ids) && Live(start) && (forall x | x in ids :: start[x].round >= 1)
    requires k < |ids| && Progressed(start, ids, |ids|, k, rows)
    requires row == rows[ids[k]].(round := Rank(start, ids, k),
             state := Renumbered(start[ids[k]].state, Rank(start, ids, k)))
    ensures Progressed(start, ids, |ids|, k + 1, rows[ids[k] := row])
    ensures forall y :: y in rows && y != ids[k] ==> !Clash(row, rows[y])
  {
    var after := rows[ids[k] := row];
    assert Progressed(start, ids, |ids|, k + 1, after);
    StepsStayLive(start, ids, |ids|, k + 1, after);
    NoClashWith(rows, ids[k], row);
  }
}
