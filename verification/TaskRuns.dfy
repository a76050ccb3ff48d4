/** The sequential code and the concurrent protocol agree: what one handler or poller
    does undisturbed is one of the protocol's runs, statement by statement. */
module TaskRuns {
  import opened Ledger
  import opened TaskTable
  import opened TaskProtocol
  import opened TaskSafety
  import opened TaskStore
  import opened Wrappers

  function WorkerAlone(b: Books, t: Tracked, w: Worker, v: Verdict, n: nat): (Books, Tracked, Worker)
    decreases n
  {
    if n == 0 then (b, t, w)
    else var (b', t', w') := WorkerStep(b, t, w, v); WorkerAlone(b', t', w', v, n - 1)
  }

  function SubmitterAlone(b: Books, p: Submitter, a: Answer, n: nat): (Books, Submitter, Option<Tracked>)
    decreases n
  {
    if n == 0 then (b, p, None)
    else
      var (b', p', t) := SubmitStep(b, p, a);
      var (b'', p'', t') := SubmitterAlone(b', p', a, n - 1);
      (b'', p'', if t.Some? then t else t')
  }

  function Repeat(e: Event, n: nat): seq<Event> { seq(n, _ => e) }

  lemma StepKeepsTask(b: Books, t: Tracked, w: Worker, v: Verdict)
    ensures WorkerStep(b, t, w, v).2.task == w.task
  {
  }

  lemma {:induction false} WorkIsLocal(s: State, i: nat, v: Verdict, n: nat)
    requires i < |s.workers| && s.workers[i].task < |s.tasks|
    ensures var t := s.workers[i].task; var (b, row, w) := WorkerAlone(s.books, s.tasks[t], s.workers[i], v, n);
      var r := Run(s, Repeat(Work(i, v), n));
      r.books == b && r.tasks == s.tasks[t := row]
    decreases n
  {
    var t := s.workers[i].task;
    if n == 0 {
      assert s.tasks[t := s.tasks[t]] == s.tasks;
    } else {
      assert Repeat(Work(i, v), n) == [Work(i, v)] + Repeat(Work(i, v), n - 1);
      RunFirst(s, Work(i, v), Repeat(Work(i, v), n - 1));
      StepKeepsTask(s.books, s.tasks[t], s.workers[i], v);
      WorkIsLocal(Next(s, Work(i, v)), i, v, n - 1);
    }
  }

  lemma RefundAlone(b: Books, t: Tracked, w: Worker)
    requires w.pc == Listed && w.snap == t.row && !t.row.status.IsTerminal()
    ensures var (b', t', w') := WorkerAlone(b, t, w, Failed, 4);
      b' == RefundedBooks(b, t.row) && t'.row == t.row.(status := Failure) && w'.pc == Refunded
  {
    var (b1, t1, w1) := WorkerStep(b, t, w, Failed);
    var (b2, t2, w2) := WorkerStep(b1, t1, w1, Failed);
    var (b3, t3, w3) := WorkerStep(b2, t2, w2, Failed);
    var (b4, t4, w4) := WorkerStep(b3, t3, w3, Failed);
    assert WorkerAlone(b3, t3, w3, Failed, 1) == (b4, t4, w4);
    assert WorkerAlone(b2, t2, w2, Failed, 2) == (b4, t4, w4);
    assert WorkerAlone(b1, t1, w1, Failed, 3) == (b4, t4, w4);
  }

  /** SettleSuccess from its token statement on. */
  lemma SavingAlone(b: Books, t: Tracked, w: Worker, final: int, n: nat)
    requires (w.pc == Saving(final) && n >= 1) || (w.pc == Settling(final, PayToken) && n >= 2)
    ensures var (b', t', w') := WorkerAlone(b, t, w, Succeeded(final), n);
      && b' == (if w.pc.Saving? then b else AddToToken(b, w.snap.token, w.snap.quota - final))
      && t'.row == t.row.(quota := final) && w'.pc == Settled
    decreases n
  {
    var (b1, t1, w1) := WorkerStep(b, t, w, Succeeded(final));
    if w.pc.Saving? {
      SettledStays(b1, t1, w1, Succeeded(final), n - 1);
    } else {
      SavingAlone(b1, t1, w1, final, n - 1);
    }
  }

  /** SettleSuccess from its token lookup on. */
  lemma SettlingAlone(b: Books, t: Tracked, w: Worker, final: int)
    requires w.pc == Settling(final, Lookup)
    ensures var (b', t', w') := WorkerAlone(b, t, w, Succeeded(final), 4);
      && b' == Posted(b, w.snap.token, final - w.snap.quota)
      && t'.row == (if w.snap.token in b.tokens then t.row.(quota := final) else t.row)
      && w'.pc == Settled
  {
    var v := Succeeded(final);
    var (b1, t1, w1) := WorkerStep(b, t, w, v);
    if w1.pc.Settled? {
      SettledStays(b1, t1, w1, v, 3);
    } else {
      var (b2, t2, w2) := WorkerStep(b1, t1, w1, v);
      SavingAlone(b2, t2, w2, final, 2);
      assert WorkerAlone(b1, t1, w1, v, 3) == WorkerAlone(b2, t2, w2, v, 2);
    }
  }

  lemma {:induction false} SettledStays(b: Books, t: Tracked, w: Worker, v: Verdict, n: nat)
    requires w.pc.Settled?
    ensures WorkerAlone(b, t, w, v, n) == (b, t, w)
  {
    if n > 0 { SettledStays(b, t, w, v, n - 1); }
  }

  lemma SettleAlone(b: Books, t: Tracked, w: Worker, final: int)
    requires w.pc == Listed && w.snap == t.row && !t.row.status.IsTerminal()
    ensures var (b', t', w') := WorkerAlone(b, t, w, Succeeded(final), 5);
      && b' == Posted(b, t.row.token, final - t.row.quota)
      && t'.row == t.row.(status := Success, quota := if t.row.token in b.tokens then final else t.row.quota)
      && w'.pc == Settled
  {
    var (b1, t1, w1) := WorkerStep(b, t, w, Succeeded(final));
    if w1.pc.Settled? {
      SettledStays(b1, t1, w1, Succeeded(final), 4);
      if t.row.token in b.tokens { PostedAddsUp(b, t.row.token, 0, 0); }
    } else {
      SettlingAlone(b1, t1, w1, final);
    }
  }

  function PollEvents(s: State, t: nat, v: Verdict, n: nat): seq<Event> {
    [List(t)] + Repeat(Work(|s.workers|, v), n)
  }

  lemma PollIsLocal(s: State, t: nat, v: Verdict, n: nat)
    requires Inv(s) && t < |s.tasks| && !s.tasks[t].row.status.IsTerminal()
    ensures var r := Run(s, PollEvents(s, t, v, n));
      var (b, row, w) := WorkerAlone(s.books, s.tasks[t], Worker(t, s.tasks[t].row, Listed), v, n);
      r.books == b && r.tasks == s.tasks[t := row]
  {
    var i := |s.workers|;
    var listed := Next(s, List(t));
    RunFirst(s, List(t), Repeat(Work(i, v), n));
    ListKeepsInv(s, t);
    assert listed.workers[i] == Worker(t, s.tasks[t].row, Listed);
    WorkIsLocal(listed, i, v, n);
  }

  /** An undisturbed FailTask is a run of the protocol: same ledgers, same table. */
  lemma FailTaskIsARun(s: State, t: nat)
    requires Inv(s) && t < |s.tasks| && !s.tasks[t].row.status.IsTerminal()
    ensures var row, r := s.tasks[t].row, Run(s, PollEvents(s, t, Failed, 4));
      && r.books == RefundedBooks(s.books, row)
      && |r.tasks| == |s.tasks| && r.tasks[t].row == row.(status := Failure)
      && forall i :: 0 <= i < |s.tasks| && i != t ==> r.tasks[i] == s.tasks[i]
  {
    PollIsLocal(s, t, Failed, 4);
    RefundAlone(s.books, s.tasks[t], Worker(t, s.tasks[t].row, Listed));
  }

  /** So is an undisturbed success verdict with its settlement. */
  lemma SuccessIsARun(s: State, t: nat, final: int)
    requires Inv(s) && t < |s.tasks| && !s.tasks[t].row.status.IsTerminal()
    ensures var row, r := s.tasks[t].row, Run(s, PollEvents(s, t, Succeeded(final), 5));
      && r.books == Posted(s.books, row.token, final - row.quota)
      && |r.tasks| == |s.tasks|
      && r.tasks[t].row == row.(status := Success, quota := if row.token in s.books.tokens then final else row.quota)
      && forall i :: 0 <= i < |s.tasks| && i != t ==> r.tasks[i] == s.tasks[i]
  {
    PollIsLocal(s, t, Succeeded(final), 5);
    SettleAlone(s.books, s.tasks[t], Worker(t, s.tasks[t].row, Listed), final);
  }

  /** What a poll's verdict does to the table at once, however stale its snapshot: the
      ledgers and every other row stay; a terminal verdict writes its status exactly when
      the row still has the snapshot's, and a running one its name exactly when the row is
      not terminal. */
  lemma VerdictIsARun(s: State, i: nat, v: Verdict)
    requires i < |s.workers| && s.workers[i].pc.Listed? && s.workers[i].task < |s.tasks|
    ensures var t, snap := s.workers[i].task, s.workers[i].snap;
      var s', row := Next(s, Work(i, v)), s.tasks[t].row;
      && s'.books == s.books && s'.submits == s.submits && |s'.tasks| == |s.tasks| && |s'.workers| == |s.workers|
      && (forall j :: 0 <= j < |s.tasks| && j != t ==> s'.tasks[j] == s.tasks[j])
      && s'.tasks[t].paid == s.tasks[t].paid
      && match v
         case Succeeded(_) =>
           && s'.tasks[t].row == (if row.status == snap.status then row.(status := Success) else row)
           && (Won(s'.workers[i]) <==> row.status == snap.status)
         case Failed =>
           && s'.tasks[t].row == (if row.status == snap.status then row.(status := Failure) else row)
           && (Won(s'.workers[i]) <==> row.status == snap.status)
         case StillRunning(name) =>
           && s'.tasks[t].row == (if name.Some? && row.status != Success && row.status != Failure
                                  then row.(status := Running(name.value)) else row)
           && !Won(s'.workers[i])
  {
  }

  /** What happens outside the handlers: a deposit reaches its user, a new token gets an id
      nobody had, a dropped token is gone; nothing else moves. */
  lemma OutsideEvents(s: State, user: UserId, amount: nat, unlimited: bool, remain: int, token: TokenId)
    requires BooksOk(s.books)
    ensures var b := s.books;
      && Next(s, Deposit(user, amount))
           == s.(books := b.(users := if user in b.users then b.users[user := b.users[user] + amount] else b.users))
      && b.nextToken !in b.tokens
      && Next(s, IssueToken(user, unlimited, remain)) == s.(books := Books(b.users,
           b.tokens[b.nextToken := Token(user, unlimited, remain, 0)], b.nextToken + 1))
      && Next(s, DropToken(token)) == s.(books := b.(tokens := b.tokens - {token}))
  {
  }

  /** A refresh in between makes an older snapshot lose: the task stays running, in its new
      status, and nothing is refunded. */
  lemma RefreshBeatsStale() returns (s: State, es: seq<Event>)
    ensures Init(s) && Balance(s.books, 1) == 100
    ensures var r := Run(s, es);
      && |r.tasks| == 1 && r.tasks[0].row.status == Running("IN_PROGRESS") && r.tasks[0].row.quota == 10
      && |r.workers| == 2 && r.workers[0].snap.status == Running("QUEUED") && r.workers[0].pc == LostRace
      && Balance(r.books, 1) == 90
  {
    s, es := AdjustedRun(10);
    var r0 := Run(s, es);
    var refresh, failed := Work(1, StillRunning(Some("IN_PROGRESS"))), Work(0, Failed);
    RunSnoc(s, es, List(0));
    var r1 := Next(r0, List(0));
    RunSnoc(s, es + [List(0)], refresh);
    VerdictIsARun(r1, 1, refresh.verdict);
    var r2 := Next(r1, refresh);
    assert r2.workers[0] == r0.workers[0];
    RunSnoc(s, es + [List(0)] + [refresh], failed);
    es := es + [List(0)] + [refresh] + [failed];
  }

  lemma {:induction false} SubmitIsLocal(s: State, i: nat, a: Answer, n: nat)
    requires i < |s.submits|
    ensures var (b, p, t) := SubmitterAlone(s.books, s.submits[i], a, n);
      var r := Run(s, Repeat(Advance(i, a), n));
      r.books == b && r.submits == s.submits[i := p]
      && r.tasks == if t.Some? then s.tasks + [t.value] else s.tasks
    decreases n
  {
    if n == 0 {
      assert s.submits[i := s.submits[i]] == s.submits;
    } else {
      assert Repeat(Advance(i, a), n) == [Advance(i, a)] + Repeat(Advance(i, a), n - 1);
      var s1 := Next(s, Advance(i, a));
      assert Run(s, Repeat(Advance(i, a), n)) == Run(s1, Repeat(Advance(i, a), n - 1)) by {
        RunFirst(s, Advance(i, a), Repeat(Advance(i, a), n - 1));
      }
      var (b, p, t) := SubmitStep(s.books, s.submits[i], a);
      assert s1.books == b && s1.submits == s.submits[i := p];
      SubmitIsLocal(s1, i, a, n - 1);
      var (b', p', t') := SubmitterAlone(b, p, a, n - 1);
      if t.Some? { InsertedIsLast(s.books, s.submits[i], a, n - 1); }
      TwoSteps(s, s1, Run(s1, Repeat(Advance(i, a), n - 1)), i, p, p', t, t');
    }
  }

  lemma TwoSteps(s: State, s1: State, r: State, i: nat, p: Submitter, p': Submitter,
                 t: Option<Tracked>, t': Option<Tracked>)
    requires i < |s.submits| && s1.submits == s.submits[i := p] && r.submits == s1.submits[i := p']
    requires s1.tasks == if t.Some? then s.tasks + [t.value] else s.tasks
    requires r.tasks == if t'.Some? then s1.tasks + [t'.value] else s1.tasks
    requires t.Some? ==> t' == None
    ensures r.submits == s.submits[i := p']
    ensures var last := if t.Some? then t else t'; r.tasks == if last.Some? then s.tasks + [last.value] else s.tasks
  {
  }

  /** A submitter inserts at most one row. */
  lemma InsertedIsLast(b: Books, p: Submitter, a: Answer, n: nat)
    requires SubmitStep(b, p, a).2.Some?
    ensures var (b', p', t) := SubmitStep(b, p, a); SubmitterAlone(b', p', a, n) == (b', p', None)
  {
    var (b', p', t) := SubmitStep(b, p, a);
    DoneStays(b', p', a, n);
  }

  // ----- the phases of a submit; n is the number of statements still to come

  lemma ReturnAlone(b: Books, p: Submitter, a: Answer, n: nat)
    requires p.pc == Returning(Lookup) && n >= 3
    ensures var (b', p', t) := SubmitterAlone(b, p, a, n); b' == Posted(b, p.token, -p.charged) && t == None
  {
    var (b1, p1, t1) := SubmitStep(b, p, a);
    var (b2, p2, t2) := SubmitStep(b1, p1, a);
    var (b3, p3, t3) := SubmitStep(b2, p2, a);
    DoneStays(b3, p3, a, n - 3);
    assert SubmitterAlone(b2, p2, a, n - 2) == (b3, p3, None);
    assert SubmitterAlone(b1, p1, a, n - 1) == (b3, p3, None);
  }

  lemma {:induction false} DoneStays(b: Books, p: Submitter, a: Answer, n: nat)
    requires p.pc.Rejected? || p.pc.Returned? || p.pc.Stranded? || p.pc.Inserted?
    ensures SubmitterAlone(b, p, a, n) == (b, p, None)
  {
    if n > 0 { DoneStays(b, p, a, n - 1); }
  }

  ghost predicate InsertResult(b: Books, p: Submitter, a: Answer, charged: int, n: nat) {
    var (b', p', t) := SubmitterAlone(b, p, a, n);
    if a.inserted then
      b' == Posted(b, p.token, charged - p.charged)
      && t.Some? && t.value.row == Task(p.user, p.token, charged, QUEUED, a.submitTime)
    else b' == Posted(b, p.token, -p.charged) && t == None
  }

  lemma InsertAlone(b: Books, p: Submitter, a: Answer, n: nat)
    requires p.pc.Inserting? && p.token in b.tokens && n >= 4
    ensures InsertResult(b, p, a, p.charged, n)
  {
    var (b1, p1, t1) := SubmitStep(b, p, a);
    PostedAddsUp(b, p.token, 0, 0);
    if a.inserted { DoneStays(b1, p1, a, n - 1); } else { ReturnAlone(b1, p1, a, n - 1); }
  }

  lemma AdjustAlone(b: Books, p: Submitter, a: Answer, adjusted: int, n: nat)
    requires p.pc == Adjusting(adjusted, Lookup) && p.token in b.tokens && p.charged == p.quota && n >= 7
    ensures InsertResult(b, p, a, adjusted, n)
  {
    var (b1, p1, t1) := SubmitStep(b, p, a);
    var (b2, p2, t2) := SubmitStep(b1, p1, a);
    PostedAddsUp(b, p.token, adjusted - p.quota, -adjusted);
    if b.tokens[p.token].unlimited {
      InsertAlone(b2, p2, a, n - 2);
      PostedAddsUp(b2, p.token, 0, 0);
    } else {
      var (b3, p3, t3) := SubmitStep(b2, p2, a);
      InsertAlone(b3, p3, a, n - 3);
      PostedAddsUp(b3, p.token, 0, 0);
      assert SubmitterAlone(b2, p2, a, n - 2) == SubmitterAlone(b3, p3, a, n - 3);
    }
    assert SubmitterAlone(b, p, a, n) == SubmitterAlone(b1, p1, a, n - 1);
  }

  function Charge(quota: int, a: Answer): int {
    if a.adjusted.Some? then a.adjusted.value else quota
  }

  ghost predicate UpstreamResult(b: Books, p: Submitter, a: Answer, n: nat) {
    if a.accepted then InsertResult(b, p, a, Charge(p.quota, a), n)
    else
      var (b', p', t) := SubmitterAlone(b, p, a, n); b' == Posted(b, p.token, -p.charged) && t == None
  }

  lemma UpstreamAlone(b: Books, p: Submitter, a: Answer, n: nat)
    requires p.pc == Upstream && p.token in b.tokens && p.charged == p.quota && n >= 8
    ensures UpstreamResult(b, p, a, n)
  {
    var (b1, p1, t1) := SubmitStep(b, p, a);
    if !a.accepted {
      ReturnAlone(b1, p1, a, n - 1);
    } else if a.adjusted.Some? && a.adjusted.value != p.quota {
      AdjustAlone(b1, p1, a, a.adjusted.value, n - 1);
    } else {
      InsertAlone(b1, p1, a, n - 1);
    }
  }

  /** What RelayVideoSubmit's contract says about ledgers and table. */
  ghost predicate SubmitResult(b: Books, user: UserId, k: TokenId, quota: int, a: Answer, b': Books,
                               t: Option<Tracked>)
  {
    if Affordable(b, k, quota) && a.accepted && a.inserted then
      b' == Posted(b, k, Charge(quota, a))
      && t.Some? && t.value.row == Task(user, k, Charge(quota, a), QUEUED, a.submitTime)
    else b' == b && t == None
  }

  lemma PreUserAlone(b: Books, b1: Books, p: Submitter, a: Answer, n: nat)
    requires n >= 9 && p.token in b.tokens && p.quota > 0 && p.charged == 0
    requires var token := b.tokens[p.token];
      p.pc == PreUser(token.owner, !token.unlimited)
      && if token.unlimited then b1 == b
         else b1 == AddToToken(b, p.token, -p.quota) && TokenCovers(b, p.token, p.quota)
    ensures var (b', p', t) := SubmitterAlone(b1, p, a, n); SubmitResult(b, p.user, p.token, p.quota, a, b', t)
  {
    var (b2, p2, t2) := SubmitStep(b1, p, a);
    PostedAddsUp(b, p.token, 0, 0);
    if p2.pc.Upstream? {
      assert b2 == Posted(b, p.token, p.quota);
      UpstreamAlone(b2, p2, a, n - 1);
      PostedAddsUp(b, p.token, p.quota, -p.quota);
      PostedAddsUp(b, p.token, p.quota, Charge(p.quota, a) - p.quota);
    } else if p2.pc.PreUndo? {
      var (b3, p3, t3) := SubmitStep(b2, p2, a);
      assert b3.tokens == b.tokens;
      DoneStays(b3, p3, a, n - 2);
      assert SubmitterAlone(b2, p2, a, n - 1) == (b3, p3, None);
    } else {
      DoneStays(b2, p2, a, n - 1);
    }
  }

  lemma PreAlone(b: Books, p: Submitter, a: Answer)
    requires p == NewSubmitter(p.user, p.token, p.quota) && p.token in b.tokens
    ensures var (b', p', t) := SubmitterAlone(b, p, a, 11); SubmitResult(b, p.user, p.token, p.quota, a, b', t)
  {
    var (b1, p1, t1) := SubmitStep(b, p, a);
    PostedAddsUp(b, p.token, 0, Charge(p.quota, a));
    if p1.pc.Rejected? {
      DoneStays(b1, p1, a, 10);
    } else if p1.pc.Upstream? {
      UpstreamAlone(b1, p1, a, 10);
    } else if p1.pc.PreUser? {
      PreUserAlone(b, b1, p1, a, 10);
    } else {
      var (b2, p2, t2) := SubmitStep(b1, p1, a);
      if p2.pc.Rejected? { DoneStays(b2, p2, a, 9); } else { PreUserAlone(b, b2, p2, a, 9); }
      assert SubmitterAlone(b1, p1, a, 10) == SubmitterAlone(b2, p2, a, 9);
    }
  }

  /** An undisturbed RelayVideoSubmit is a run of the protocol. */
  lemma SubmitIsARun(s: State, user: UserId, k: TokenId, quota: int, a: Answer)
    requires user in s.books.users && k in s.books.tokens && s.books.tokens[k].owner == user
    ensures var r := Run(s, [Submit(user, k, quota)] + Repeat(Advance(|s.submits|, a), 11));
      exists t: Option<Tracked> ::
        && SubmitResult(s.books, user, k, quota, a, r.books, t)
        && r.tasks == if t.Some? then s.tasks + [t.value] else s.tasks
  {
    var i := |s.submits|;
    var started := Next(s, Submit(user, k, quota));
    RunFirst(s, Submit(user, k, quota), Repeat(Advance(i, a), 11));
    SubmitIsLocal(started, i, a, 11);
    PreAlone(s.books, started.submits[i], a);
    var (b, p, t) := SubmitterAlone(started.books, started.submits[i], a, 11);
    assert SubmitResult(s.books, user, k, quota, a, b, t);
  }
}
