/** The billing code of a single process, statement after statement with nobody else
    running: model/token.go, model/task.go, relay/task and controller/video.go. Each
    method is proved against what it does to the ledgers and the task table; TaskRuns
    shows that every such call is also a run of the concurrent protocol. */
module TaskStore {
  import opened Ledger
  import opened TaskTable
  import TaskProtocol
  import opened Wrappers

  const TIMEOUT_SCAN_LIMIT := 100
  const TASK_TIMEOUT := 7200

  // ------------------------------------------------------------------ what each call does

  /** int64(x): truncation toward zero. */
  function Truncate(x: real): int {
    if x >= 0.0 then x.Floor else -((-x).Floor)
  }

  /** The whole number next to x on the side of zero. */
  lemma TruncateMeans(x: real)
    ensures x >= 0.0 ==> Truncate(x) as real <= x < Truncate(x) as real + 1.0
    ensures x < 0.0 ==> Truncate(x) as real - 1.0 < x <= Truncate(x) as real
    ensures x >= 0.0 ==> Truncate(x) >= 0
    ensures x < 0.0 ==> Truncate(x) <= 0
  {
  }

  predicate Affordable(b: Books, k: TokenId, quota: int) {
    || quota == 0
    || (quota > 0 && k in b.tokens && UserCovers(b, b.tokens[k].owner, quota)
        && (b.tokens[k].unlimited || TokenCovers(b, k, quota)))
  }

  /** `quota` more charged (or, when negative, given back) on every ledger that applies. */
  function Posted(b: Books, k: TokenId, quota: int): Books {
    if k !in b.tokens then b
    else
      var afterUser := AddToUser(b, b.tokens[k].owner, -quota);
      if b.tokens[k].unlimited then afterUser else AddToToken(afterUser, k, -quota)
  }

  function RefundedBooks(b: Books, task: Task): Books {
    if task.quota <= 0 then b
    else if task.token in b.tokens then Posted(b, task.token, -task.quota)
    else AddToUser(b, task.user, task.quota)
  }

  /** Override by the adaptor, else recalculation from upstream usage, else unchanged. */
  function FinalQuota(task: Task, override: Option<int>, totalTokens: int, ratio: real): int {
    if override.Some? then override.value
    else if totalTokens > 0 then Truncate(totalTokens as real * ratio)
    else task.quota
  }

  predicate Due(row: Task, before: int) {
    !row.status.IsTerminal() && row.submitTime < before
  }

  /** How many rows due at `before` have an id below i. */
  function DueBefore(rows: seq<Task>, i: nat, before: int): (n: nat)
    requires i <= |rows|
    ensures n <= i
  {
    if i == 0 then 0 else DueBefore(rows, i - 1, before) + if Due(rows[i - 1], before) then 1 else 0
  }

  predicate Listed(rows: seq<Task>, i: nat, limit: nat, before: int)
    requires i < |rows|
  {
    Due(rows[i], before) && DueBefore(rows, i, before) < limit
  }

  /** The rows after one timeout scan: the first `limit` due rows have failed. */
  ghost predicate Scanned(rows: seq<Task>, rows': seq<Task>, limit: nat, before: int) {
    && |rows'| == |rows|
    && forall i :: 0 <= i < |rows| ==>
         rows'[i] == if Listed(rows, i, limit, before) then rows[i].(status := Failure) else rows[i]
  }

  ghost predicate Ascending(ids: seq<nat>) {
    forall j, k :: 0 <= j < k < |ids| ==> ids[j] < ids[k]
  }

  /** Exactly the rows named by the first n ids have failed. */
  ghost predicate FailedFirst(rows: seq<Task>, rows': seq<Task>, ids: seq<nat>, n: nat) {
    && n <= |ids| && |rows'| == |rows|
    && forall i :: 0 <= i < |rows| ==>
         rows'[i] == if i in ids[..n] then rows[i].(status := Failure) else rows[i]
  }

  ghost function Changed(rows: seq<Task>, rows': seq<Task>): set<nat>
    requires |rows'| == |rows|
  {
    set i: nat | i < |rows| && rows'[i] != rows[i]
  }

  ghost function SetOf(ids: seq<nat>): (r: set<nat>)
    ensures forall x :: x in r <==> x in ids
  {
    if ids == [] then {} else SetOf(ids[..|ids| - 1]) + {ids[|ids| - 1]}
  }

  lemma {:induction false} AscendingCount(ids: seq<nat>)
    requires Ascending(ids)
    ensures |SetOf(ids)| == |ids|
  {
    if ids != [] {
      var n := |ids| - 1;
      AscendingCount(ids[..n]);
      assert ids[n] !in ids[..n];
    }
  }

  /** The changed rows are the listed ones, each once. */
  lemma ChangedAreListed(rows: seq<Task>, rows': seq<Task>, ids: seq<nat>)
    requires Ascending(ids) && FailedFirst(rows, rows', ids, |ids|)
    requires forall j :: 0 <= j < |ids| ==> ids[j] < |rows| && !rows[ids[j]].status.IsTerminal()
    ensures |Changed(rows, rows')| == |ids|
  {
    assert ids[..|ids|] == ids;
    assert Changed(rows, rows') == SetOf(ids);
    AscendingCount(ids);
  }

  lemma FailedFirstGrows(rows: seq<Task>, rows': seq<Task>, ids: seq<nat>, n: nat)
    requires Ascending(ids) && n < |ids| && ids[n] < |rows| && FailedFirst(rows, rows', ids, n)
    ensures rows'[ids[n]] == rows[ids[n]]
    ensures FailedFirst(rows, rows'[ids[n] := rows[ids[n]].(status := Failure)], ids, n + 1)
  {
    assert ids[..n + 1] == ids[..n] + [ids[n]];
    assert ids[n] !in ids[..n];
  }

  /** Charges the rows of user u stand for, as in the protocol's accounting. */
  function HeldOn(rows: seq<Task>, u: UserId): int {
    if rows == [] then 0
    else HeldOn(rows[..|rows| - 1], u)
         + if rows[|rows| - 1].user == u then TaskProtocol.RowHeld(rows[|rows| - 1]) else 0
  }

  ghost predicate AllKnown(b: Books, rows: seq<Task>) {
    forall i :: 0 <= i < |rows| ==> TaskProtocol.Known(b, rows[i].user, rows[i].token)
  }

  /** Every user's balance plus recorded charges is the same in both states. */
  ghost predicate SameWealth(b: Books, rows: seq<Task>, b': Books, rows': seq<Task>) {
    && b'.users.Keys == b.users.Keys
    && forall u :: u in b.users ==> b'.users[u] + HeldOn(rows', u) == b.users[u] + HeldOn(rows, u)
  }

  // ------------------------------------------------------------------ the server's tables

  class Server {
    var users: map<UserId, int>
    var tokens: map<TokenId, Token>
    var nextToken: TokenId
    var tasks: seq<Task>

    constructor (users: map<UserId, int>, tokens: map<TokenId, Token>, nextToken: TokenId)
      ensures this.tasks == [] && AllBooks() == Books(users, tokens, nextToken)
    {
      this.users := users;
      this.tokens := tokens;
      this.nextToken := nextToken;
      this.tasks := [];
    }

    function AllBooks(): Books
      reads this
    {
      Books(users, tokens, nextToken)
    }

    // ----- model/user.go and model/token.go

    method IncreaseUserQuota(id: UserId, quota: int) returns (ok: bool)
      modifies this`users
      ensures ok == (quota >= 0)
      ensures AllBooks() == if ok then AddToUser(old(AllBooks()), id, quota) else old(AllBooks())
      ensures users == if ok && id in old(users) then old(users)[id := old(users)[id] + quota] else old(users)
    {
      if quota < 0 { return false; }
      if id in users { users := users[id := users[id] + quota]; }
      return true;
    }

    method DecreaseUserQuota(id: UserId, quota: int) returns (ok: bool)
      modifies this`users
      ensures ok == (quota >= 0)
      ensures AllBooks() == if ok then AddToUser(old(AllBooks()), id, -quota) else old(AllBooks())
      ensures users == if ok && id in old(users) then old(users)[id := old(users)[id] - quota] else old(users)
    {
      if quota < 0 { return false; }
      if id in users { users := users[id := users[id] - quota]; }
      return true;
    }

    method IncreaseTokenQuota(id: TokenId, quota: int) returns (ok: bool)
      modifies this`tokens
      ensures ok == (quota >= 0)
      ensures AllBooks() == if ok then AddToToken(old(AllBooks()), id, quota) else old(AllBooks())
      ensures tokens.Keys == old(tokens).Keys && forall k :: k in tokens ==>
        var row := old(tokens)[k];
        tokens[k] == if ok && k == id
                     then Token(row.owner, row.unlimited, row.remain + quota, row.used - quota) else row
    {
      if quota < 0 { return false; }
      if id in tokens {
        tokens := tokens[id := tokens[id].(remain := tokens[id].remain + quota, used := tokens[id].used - quota)];
      }
      return true;
    }

    method DecreaseTokenQuota(id: TokenId, quota: int) returns (ok: bool)
      modifies this`tokens
      ensures ok == (quota >= 0)
      ensures AllBooks() == if ok then AddToToken(old(AllBooks()), id, -quota) else old(AllBooks())
      ensures tokens.Keys == old(tokens).Keys && forall k :: k in tokens ==>
        var row := old(tokens)[k];
        tokens[k] == if ok && k == id
                     then Token(row.owner, row.unlimited, row.remain - quota, row.used + quota) else row
    {
      if quota < 0 { return false; }
      if id in tokens {
        tokens := tokens[id := tokens[id].(remain := tokens[id].remain - quota, used := tokens[id].used + quota)];
      }
      return true;
    }

    /** All or nothing on both ledgers: it succeeds exactly when the token row exists and
        user and capped token cover the quota. */
    method PreConsumeTokenQuota(id: TokenId, quota: int) returns (ok: bool)
      modifies this`users, this`tokens
      ensures ok <==> Affordable(old(AllBooks()), id, quota)
      ensures !ok ==> AllBooks() == old(AllBooks())
      ensures ok ==> AllBooks() == Posted(old(AllBooks()), id, quota)
      ensures ok <==>
        || quota == 0
        || (quota > 0 && id in old(tokens)
            && old(tokens)[id].owner in old(users) && old(users)[old(tokens)[id].owner] >= quota
            && (old(tokens)[id].unlimited || old(tokens)[id].remain >= quota))
    {
      if quota < 0 { return false; }
      if quota == 0 {
        ghost var b := AllBooks();
        assert id in b.tokens ==> AddToUser(b, b.tokens[id].owner, 0) == b && AddToToken(b, id, 0) == b;
        return true;
      }
      if id !in tokens { return false; }
      var token := tokens[id];
      if !token.unlimited {
        if token.remain < quota { return false; }
        var _ := DecreaseTokenQuota(id, quota);
      }
      if token.owner !in users || users[token.owner] < quota {
        if !token.unlimited {
          var _ := IncreaseTokenQuota(id, quota);
          assert tokens == old(tokens);
        }
        return false;
      }
      var _ := DecreaseUserQuota(token.owner, quota);
      return true;
    }

    method PostConsumeTokenQuota(id: TokenId, quota: int) returns (found: bool)
      modifies this`users, this`tokens
      ensures found <==> id in old(tokens)
      ensures AllBooks() == Posted(old(AllBooks()), id, quota)
    {
      if id !in tokens { return false; }
      var token := tokens[id];
      if quota > 0 {
        var _ := DecreaseUserQuota(token.owner, quota);
      } else {
        var _ := IncreaseUserQuota(token.owner, -quota);
      }
      if !token.unlimited {
        if quota > 0 {
          var _ := DecreaseTokenQuota(id, quota);
        } else {
          var _ := IncreaseTokenQuota(id, -quota);
        }
      }
      return true;
    }

    // ----- model/task.go

    method UpdateTaskStatus(id: nat, from: Status, to: Status) returns (won: bool)
      modifies this`tasks
      ensures won <==> id < |old(tasks)| && old(tasks)[id].status == from
      ensures tasks == if won then old(tasks)[id := old(tasks)[id].(status := to)] else old(tasks)
    {
      if id < |tasks| && CasMatches(tasks[id], from) {
        tasks := tasks[id := tasks[id].(status := to)];
        return true;
      }
      return false;
    }

    method UpdateTaskNonTerminal(id: nat, name: string)
      modifies this`tasks
      ensures tasks == if id < |old(tasks)| && !old(tasks)[id].status.IsTerminal()
                       then old(tasks)[id := old(tasks)[id].(status := Running(name))] else old(tasks)
    {
      if id < |tasks| && !tasks[id].status.IsTerminal() {
        tasks := tasks[id := RefreshStatus(tasks[id], name)];
      }
    }

    method UpdateTaskQuota(id: nat, quota: int)
      modifies this`tasks
      ensures tasks == if id < |old(tasks)| then old(tasks)[id := old(tasks)[id].(quota := quota)] else old(tasks)
    {
      if id < |tasks| { tasks := tasks[id := tasks[id].(quota := quota)]; }
    }

    /** WHERE non-terminal AND submit_time < before ORDER BY id LIMIT limit. */
    method ListTimeoutTasks(limit: nat, before: int) returns (ids: seq<nat>)
      ensures Ascending(ids)
      ensures forall j :: 0 <= j < |ids| ==> ids[j] < |tasks| && Listed(tasks, ids[j], limit, before)
      ensures forall i :: 0 <= i < |tasks| && Listed(tasks, i, limit, before) ==> i in ids
      ensures |ids| <= limit
      // in the table's own terms: running rows submitted before `before`, and one that is
      // missing has `limit` others in front of it
      ensures forall j :: 0 <= j < |ids| ==>
        ids[j] < |tasks| && !tasks[ids[j]].status.IsTerminal() && tasks[ids[j]].submitTime < before
      ensures forall i ::
        0 <= i < |tasks| && !tasks[i].status.IsTerminal() && tasks[i].submitTime < before && i !in ids ==>
          |ids| == limit && forall j :: 0 <= j < |ids| ==> ids[j] < i
    {
      ids := [];
      var i := 0;
      while i < |tasks| && |ids| < limit
        invariant 0 <= i <= |tasks|
        invariant forall k :: 0 <= k < i && Due(tasks[k], before) ==> k in ids
        invariant |ids| == DueBefore(tasks, i, before) <= limit
        invariant Ascending(ids)
        invariant forall j :: 0 <= j < |ids| ==> ids[j] < i && Listed(tasks, ids[j], limit, before)
        invariant forall k :: 0 <= k < i && Listed(tasks, k, limit, before) ==> k in ids
      {
        if Due(tasks[i], before) { ids := ids + [i]; }
        i := i + 1;
      }
      forall k | 0 <= k < |tasks| && Listed(tasks, k, limit, before) ensures k in ids {
        if k >= i { DueBeforeMonotone(tasks, i, k, before); }
      }
    }

    // ----- relay/task/billing.go and relay/task/poller.go

    method RefundTask(task: Task)
      modifies this`users, this`tokens
      ensures AllBooks() == RefundedBooks(old(AllBooks()), task)
    {
      if task.quota <= 0 { return; }
      var found := PostConsumeTokenQuota(task.token, -task.quota);
      if !found {
        var _ := IncreaseUserQuota(task.user, task.quota);
      }
    }

    method SettleSuccess(id: nat, task: Task, override: Option<int>, totalTokens: int, ratio: real)
      modifies this`users, this`tokens, this`tasks
      ensures var final := FinalQuota(task, override, totalTokens, ratio);
        && AllBooks() == Posted(old(AllBooks()), task.token, final - task.quota)
        && tasks == if final != task.quota && task.token in old(tokens) && id < |old(tasks)|
                    then old(tasks)[id := old(tasks)[id].(quota := final)] else old(tasks)
      // which source the final quota comes from
      ensures task.token in old(tokens) && id < |tasks| && old(tasks)[id].quota == task.quota ==>
        && (override.Some? ==> tasks[id].quota == override.value)
        && (override.None? && totalTokens > 0 ==> tasks[id].quota == Truncate(totalTokens as real * ratio))
        && (override.None? && totalTokens <= 0 ==> tasks[id].quota == task.quota)
    {
      var final := FinalQuota(task, override, totalTokens, ratio);
      var delta := final - task.quota;
      if delta == 0 {
        ghost var b := AllBooks();
        assert task.token in b.tokens ==>
          AddToUser(b, b.tokens[task.token].owner, 0) == b && AddToToken(b, task.token, 0) == b;
        return;
      }
      var found := PostConsumeTokenQuota(task.token, delta);
      if !found { return; }
      UpdateTaskQuota(id, final);
    }

    /** Only the winner of the compare-and-set refunds. */
    method FailTask(id: nat, snap: Task)
      modifies this`users, this`tokens, this`tasks
      ensures var won := id < |old(tasks)| && old(tasks)[id].status == snap.status;
        && tasks == (if won then old(tasks)[id := old(tasks)[id].(status := Failure)] else old(tasks))
        && AllBooks() == if won then RefundedBooks(old(AllBooks()), snap) else old(AllBooks())
    {
      var won := UpdateTaskStatus(id, snap.status, Failure);
      if !won { return; }
      RefundTask(snap);
    }

    /** The first hundred timed-out tasks fail, and their owners get back exactly the
        charges those rows stop holding. */
    method ScanTimeouts(now: int)
      requires AllKnown(AllBooks(), tasks)
      modifies this`users, this`tokens, this`tasks
      ensures AllKnown(AllBooks(), tasks)
      ensures Scanned(old(tasks), tasks, TIMEOUT_SCAN_LIMIT, now - TASK_TIMEOUT)
      ensures SameWealth(old(AllBooks()), old(tasks), AllBooks(), tasks)
      // at most a hundred rows fail; finished and recent rows do not move; an overdue row is
      // left only when a hundred others have failed
      ensures |tasks| == |old(tasks)| && |Changed(old(tasks), tasks)| <= 100
      ensures forall i :: 0 <= i < |tasks| && tasks[i] != old(tasks)[i] ==>
        && !old(tasks)[i].status.IsTerminal() && old(tasks)[i].submitTime < now - 7200
        && tasks[i] == old(tasks)[i].(status := Failure)
      ensures forall i :: 0 <= i < |tasks| && !tasks[i].status.IsTerminal() && tasks[i].submitTime < now - 7200 ==>
        |Changed(old(tasks), tasks)| == 100
    {
      var before := now - TASK_TIMEOUT;
      var ids := ListTimeoutTasks(TIMEOUT_SCAN_LIMIT, before);
      var rows := tasks;
      var n := 0;
      while n < |ids|
        invariant 0 <= n <= |ids|
        invariant FailedFirst(rows, tasks, ids, n)
        invariant AllKnown(AllBooks(), tasks)
        invariant SameWealth(old(AllBooks()), old(tasks), AllBooks(), tasks)
      {
        var id := ids[n];
        FailedFirstGrows(rows, tasks, ids, n);
        FailKeepsWealth(AllBooks(), tasks, id);
        FailTask(id, rows[id]);
        n := n + 1;
      }
      assert ids[..n] == ids;
      ChangedAreListed(rows, tasks, ids);
      forall i | 0 <= i < |tasks| && !tasks[i].status.IsTerminal() && tasks[i].submitTime < before
        ensures |Changed(rows, tasks)| == 100
      {
        assert i !in ids;
      }
    }

    method ApplyTaskInfo(id: nat, snap: Task, verdict: TaskProtocol.Verdict)
      modifies this`users, this`tokens, this`tasks
      ensures var rows := old(tasks); var won := id < |rows| && rows[id].status == snap.status;
        match verdict
        case Succeeded(final) =>
          && AllBooks() == (if won then Posted(old(AllBooks()), snap.token, final - snap.quota) else old(AllBooks()))
          && tasks == if !won then rows else
               rows[id := rows[id].(status := Success,
                 quota := if final != snap.quota && snap.token in old(tokens) then final else rows[id].quota)]
        case Failed =>
          && AllBooks() == (if won then RefundedBooks(old(AllBooks()), snap) else old(AllBooks()))
          && tasks == if won then rows[id := rows[id].(status := Failure)] else rows
        case StillRunning(name) =>
          && AllBooks() == old(AllBooks())
          && tasks == if name.Some? && id < |rows| && !rows[id].status.IsTerminal()
                      then rows[id := rows[id].(status := Running(name.value))] else rows
    {
      match verdict
      case Succeeded(final) =>
        var won := UpdateTaskStatus(id, snap.status, Success);
        if won { SettleSuccess(id, snap, Some(final), 0, 0.0); }
      case Failed => FailTask(id, snap);
      case StillRunning(name) =>
        if name.Some? { UpdateTaskNonTerminal(id, name.value); }
    }

    /** The billing skeleton of RelayVideoSubmit. `answer` is what the upstream hooks and
        the insert say. Either a row records exactly what was charged, or nothing stays
        charged; with nobody else running the token cannot vanish in between. A free order
        is taken even when its token row is gone, and then keeps its price of zero. */
    method RelayVideoSubmit(user: UserId, token: TokenId, quota: int, answer: TaskProtocol.Answer)
      returns (accepted: bool)
      modifies this`users, this`tokens, this`tasks
      ensures accepted <==> Affordable(old(AllBooks()), token, quota) && answer.accepted && answer.inserted
      ensures !accepted ==> AllBooks() == old(AllBooks()) && tasks == old(tasks)
      ensures accepted ==>
        var charged := if answer.adjusted.Some? && token in old(tokens) then answer.adjusted.value else quota;
        && tasks == old(tasks) + [Task(user, token, charged, Running("QUEUED"), answer.submitTime)]
        && AllBooks() == Posted(old(AllBooks()), token, charged)
    {
      var ok := PreConsumeTokenQuota(token, quota);
      if !ok { return false; }
      var charged := quota;
      if !answer.accepted {
        var _ := PostConsumeTokenQuota(token, -charged);
        PostedAddsUp(old(AllBooks()), token, charged, -charged);
        return false;
      }
      if answer.adjusted.Some? && answer.adjusted.value != quota {
        var found := PostConsumeTokenQuota(token, answer.adjusted.value - quota);
        PostedAddsUp(old(AllBooks()), token, quota, answer.adjusted.value - quota);
        if found { charged := answer.adjusted.value; }
      }
      if !answer.inserted {
        var _ := PostConsumeTokenQuota(token, -charged);
        PostedAddsUp(old(AllBooks()), token, charged, -charged);
        return false;
      }
      tasks := tasks + [Task(user, token, charged, QUEUED, answer.submitTime)];
      return true;
    }
  }

  // ------------------------------------------------------------------ lemmas

  lemma {:induction false} DueBeforeMonotone(rows: seq<Task>, i: nat, j: nat, before: int)
    requires i <= j <= |rows|
    ensures DueBefore(rows, i, before) <= DueBefore(rows, j, before)
  {
    if i < j { DueBeforeMonotone(rows, i, j - 1, before); }
  }

  /** Consecutive corrections add up; in particular a charge and its return cancel. */
  lemma PostedAddsUp(b: Books, k: TokenId, x: int, y: int)
    ensures Posted(Posted(b, k, x), k, y) == Posted(b, k, x + y)
    ensures Posted(b, k, 0) == b
  {
    if k in b.tokens {
      assert Posted(Posted(b, k, x), k, y).users == Posted(b, k, x + y).users;
      assert Posted(Posted(b, k, x), k, y).tokens == Posted(b, k, x + y).tokens;
      assert Posted(b, k, 0).users == b.users;
      assert Posted(b, k, 0).tokens == b.tokens;
    }
  }

  /** What PostConsumeTokenQuota does to every row. */
  lemma PostedRows(b: Books, k: TokenId, quota: int)
    ensures var b' := Posted(b, k, quota);
      && b'.users.Keys == b.users.Keys && b'.tokens.Keys == b.tokens.Keys && b'.nextToken == b.nextToken
      && (forall u :: u in b.users ==>
            b'.users[u] == b.users[u] - if k in b.tokens && u == b.tokens[k].owner then quota else 0)
      && (forall j :: j in b.tokens ==>
            var row, moved := b.tokens[j], if j == k && !b.tokens[j].unlimited then quota else 0;
            b'.tokens[j] == Token(row.owner, row.unlimited, row.remain - moved, row.used + moved))
  {
  }

  /** Who gets a refund: nobody for a quota of zero or less, else the token's owner, or the
      task's user when the token is gone; and a capped token gets it back too. */
  lemma RefundedRows(b: Books, task: Task)
    ensures var b' := RefundedBooks(b, task);
      var payee := if task.token in b.tokens then b.tokens[task.token].owner else task.user;
      && b'.users.Keys == b.users.Keys && b'.tokens.Keys == b.tokens.Keys
      && (forall u :: u in b.users ==>
            b'.users[u] == b.users[u] + if task.quota > 0 && u == payee then task.quota else 0)
      && (forall j :: j in b.tokens ==>
            var row := b.tokens[j];
            var back := if j == task.token && task.quota > 0 && !row.unlimited then task.quota else 0;
            b'.tokens[j] == Token(row.owner, row.unlimited, row.remain + back, row.used - back))
  {
    PostedRows(b, task.token, -task.quota);
  }

  lemma {:induction false} HeldOnUpdate(rows: seq<Task>, i: nat, row: Task, u: UserId)
    requires i < |rows| && row.user == rows[i].user
    ensures HeldOn(rows[i := row], u) == HeldOn(rows, u)
      + if row.user == u then TaskProtocol.RowHeld(row) - TaskProtocol.RowHeld(rows[i]) else 0
  {
    var n := |rows| - 1;
    if i == n {
      assert rows[i := row][..n] == rows[..n];
    } else {
      assert rows[i := row][..n] == rows[..n][i := row];
      HeldOnUpdate(rows[..n], i, row, u);
    }
  }

  /** Failing and refunding one running task moves no user's wealth. */
  lemma FailKeepsWealth(b: Books, rows: seq<Task>, i: nat)
    requires i < |rows| && !rows[i].status.IsTerminal() && AllKnown(b, rows)
    ensures var b', rows' := RefundedBooks(b, rows[i]), rows[i := rows[i].(status := Failure)];
      AllKnown(b', rows') && SameWealth(b, rows, b', rows')
  {
    var b', rows' := RefundedBooks(b, rows[i]), rows[i := rows[i].(status := Failure)];
    assert TaskProtocol.Known(b, rows[i].user, rows[i].token);
    forall u | u in b.users ensures b'.users[u] + HeldOn(rows', u) == b.users[u] + HeldOn(rows, u) {
      HeldOnUpdate(rows, i, rows[i].(status := Failure), u);
    }
  }
}
