/** Timeout scans drain the table even while new tasks keep arriving and pollers keep
    working between the scans. */
module TaskDrain {
  import opened TaskTable
  import opened TaskStore
  import TaskProtocol
  import TaskSafety

  function ScanOnce(rows: seq<Task>, limit: nat, before: int): (rows': seq<Task>)
    ensures Scanned(rows, rows', limit, before)
  {
    seq(|rows|, i requires 0 <= i < |rows| =>
      if Listed(rows, i, limit, before) then rows[i].(status := Failure) else rows[i])
  }

  /** What may happen between two scans: rows are added, and an existing row keeps its
      submit time and, once terminal, stays terminal. */
  ghost predicate MovesOn(rows: seq<Task>, later: seq<Task>) {
    && |rows| <= |later|
    && forall i :: 0 <= i < |rows| ==>
         later[i].submitTime == rows[i].submitTime && (rows[i].status.IsTerminal() ==> later[i].status.IsTerminal())
  }

  /** Table j is what scan j meets; between it and the next one anything moves on. */
  ghost predicate Rounds(tables: seq<seq<Task>>, befores: seq<int>) {
    && |tables| == |befores| + 1
    && forall j :: 0 <= j < |befores| ==> MovesOn(ScanOnce(tables[j], TIMEOUT_SCAN_LIMIT, befores[j]), tables[j + 1])
  }

  /** Unfinished tasks with an id below i. */
  function OpenBefore(rows: seq<Task>, i: nat): (n: nat)
    requires i <= |rows|
  {
    if i == 0 then 0 else OpenBefore(rows, i - 1) + if rows[i - 1].status.IsTerminal() then 0 else 1
  }

  /** A scan that does not reach row i has closed `limit` tasks in front of it. */
  lemma {:induction false} ScanClosesEarlier(rows: seq<Task>, limit: nat, before: int, i: nat)
    requires i <= |rows|
    ensures var rows' := ScanOnce(rows, limit, before); var due := DueBefore(rows, i, before);
      OpenBefore(rows', i) == OpenBefore(rows, i) - if due < limit then due else limit
  {
    if i > 0 { ScanClosesEarlier(rows, limit, before, i - 1); }
  }

  lemma {:induction false} MovingOnOpensNothing(rows: seq<Task>, later: seq<Task>, i: nat)
    requires MovesOn(rows, later) && i <= |rows|
    ensures OpenBefore(later, i) <= OpenBefore(rows, i)
  {
    if i > 0 { MovingOnOpensNothing(rows, later, i - 1); }
  }

  /** A round takes a timed-out task to its end, or closes a hundred in front of it. */
  lemma OneRound(rows: seq<Task>, before: int, later: seq<Task>, t: nat)
    requires t < |rows| && rows[t].submitTime < before
    requires MovesOn(ScanOnce(rows, TIMEOUT_SCAN_LIMIT, before), later)
    ensures t < |later| && later[t].submitTime == rows[t].submitTime
    ensures later[t].status.IsTerminal()
      || (!rows[t].status.IsTerminal() && OpenBefore(later, t) <= OpenBefore(rows, t) - TIMEOUT_SCAN_LIMIT)
  {
    ScanClosesEarlier(rows, TIMEOUT_SCAN_LIMIT, before, t);
    MovingOnOpensNothing(ScanOnce(rows, TIMEOUT_SCAN_LIMIT, before), later, t);
  }

  /** After j rounds the task is terminal, or 100 * j unfinished tasks in front of it are
      gone. */
  lemma {:induction false} RoundsClose(tables: seq<seq<Task>>, befores: seq<int>, t: nat, j: nat)
    requires Rounds(tables, befores) && t < |tables[0]| && j <= |befores|
    requires forall k :: 0 <= k < |befores| ==> tables[0][t].submitTime < befores[k]
    ensures t < |tables[j]| && tables[j][t].submitTime == tables[0][t].submitTime
    ensures tables[j][t].status.IsTerminal()
      || OpenBefore(tables[j], t) <= OpenBefore(tables[0], t) - TIMEOUT_SCAN_LIMIT * j
  {
    if j > 0 {
      RoundsClose(tables, befores, t, j - 1);
      OneRound(tables[j - 1], befores[j - 1], tables[j], t);
    }
  }

  /** A timed-out task with r unfinished tasks in front of it is terminal after
      floor(r / 100) + 1 rounds, whatever moves on between the scans. */
  lemma BoundedDrain(tables: seq<seq<Task>>, befores: seq<int>, t: nat)
    requires Rounds(tables, befores) && t < |tables[0]|
    requires forall k :: 0 <= k < |befores| ==> tables[0][t].submitTime < befores[k]
    requires |befores| >= OpenBefore(tables[0], t) / TIMEOUT_SCAN_LIMIT + 1
    ensures t < |tables[|befores|]| && tables[|befores|][t].status.IsTerminal()
  {
    RoundsClose(tables, befores, t, |befores|);
  }

  // ------------------------------------------------------------------ what does move on

  function Rows(s: TaskProtocol.State): (rows: seq<Task>)
    ensures |rows| == |s.tasks| && forall i :: 0 <= i < |rows| ==> rows[i] == s.tasks[i].row
  {
    seq(|s.tasks|, i requires 0 <= i < |s.tasks| => s.tasks[i].row)
  }

  lemma EventMovesOn(s: TaskProtocol.State, e: TaskProtocol.Event)
    requires TaskProtocol.Inv(s)
    ensures MovesOn(Rows(s), Rows(TaskProtocol.Next(s, e)))
  {
    forall t | 0 <= t < |s.tasks|
      ensures t < |TaskProtocol.Next(s, e).tasks|
      ensures var row, row' := s.tasks[t].row, TaskProtocol.Next(s, e).tasks[t].row;
        row'.submitTime == row.submitTime && (row.status.IsTerminal() ==> row'.status.IsTerminal())
    {
      TaskSafety.NextKeepsRow(s, e, t);
    }
  }

  /** Any run of submits, pollers and other scans between two scans moves on. */
  lemma {:induction false} RunMovesOn(s: TaskProtocol.State, es: seq<TaskProtocol.Event>)
    requires TaskProtocol.Inv(s)
    ensures MovesOn(Rows(s), Rows(TaskProtocol.Run(s, es)))
  {
    if es != [] {
      RunMovesOn(s, es[..|es| - 1]);
      TaskSafety.RunKeepsInv(s, es[..|es| - 1]);
      EventMovesOn(TaskProtocol.Run(s, es[..|es| - 1]), es[|es| - 1]);
    }
  }
}
