/** Rows of the task table and the statements that change them (model/task.go). */
module TaskTable {
  import opened Ledger

  /** Every status string other than the two terminal ones is a running status. */
  datatype Status = Running(name: string) | Success | Failure {
    predicate IsTerminal() { Success? || Failure? }
  }

  datatype Task = Task(user: UserId, token: TokenId, quota: int, status: Status, submitTime: int)

  const QUEUED := Running("QUEUED")

  /** UPDATE ... WHERE id = ? AND status = from: the row matches or nothing happens. */
  predicate CasMatches(row: Task, from: Status) { row.status == from }

  /** UPDATE ... WHERE id = ? AND status NOT IN (SUCCESS, FAILURE). */
  function RefreshStatus(row: Task, name: string): Task {
    if row.status.IsTerminal() then row else row.(status := Running(name))
  }
}
