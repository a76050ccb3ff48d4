/** What every run of the task billing protocol keeps, for any number of submitters,
    pollers and timeout scans, under any interleaving of their statements. */
module TaskSafety {
  import opened Sums
  import opened Ledger
  import opened TaskTable
  import opened TaskProtocol
  import opened Wrappers

  // ------------------------------------------------------------------ the invariant

  lemma BooksFrame(s: State, b': Books)
    requires Inv(s) && BooksOk(b') && Evolves(s.books, b')
    ensures Inv(s.(books := b'))
  {
    forall i | 0 <= i < |s.submits| ensures SubmitOk(b', s.submits[i]) { SubmitFrame(s.books, b', s.submits[i]); }
    forall t | 0 <= t < |s.tasks| ensures RowOk(b', s.tasks[t]) { RowFrame(s.books, b', s.tasks[t]); }
    forall w | 0 <= w < |s.workers| ensures WorkerOk(b', s.tasks[s.workers[w].task], s.workers[w]) {
      WorkerFrame(s.books, b', s.tasks[s.workers[w].task], s.workers[w]);
    }
  }

  lemma AdvanceKeepsInv(s: State, i: nat, a: Answer)
    requires Inv(s) && i < |s.submits|
    ensures Inv(Next(s, Advance(i, a)))
  {
    var (b, p, t) := SubmitStep(s.books, s.submits[i], a);
    SubmitStepKeeps(s.books, s.submits[i], a);
    BooksFrame(s, b);
    var s' := Next(s, Advance(i, a));
    forall j | 0 <= j < |s'.submits| ensures SubmitOk(b, s'.submits[j]) {
      assert j != i ==> s'.submits[j] == s.submits[j];
    }
    assert forall k :: 0 <= k < |s.tasks| ==> s'.tasks[k] == s.tasks[k];
  }

  /** The compare-and-set step: a second winner would have found a terminal row. */
  lemma WorkKeepsSingleWinner(s: State, i: nat, v: Verdict)
    requires Inv(s) && i < |s.workers|
    ensures SingleWinner(Next(s, Work(i, v)).tasks, Next(s, Work(i, v)).workers)
  {
    var w := s.workers[i];
    var s' := Next(s, Work(i, v));
    WorkerStepKeeps(s.books, s.tasks[w.task], w, v);
    assert Won(w) ==> Won(s'.workers[i]);
    assert !Won(w) && Won(s'.workers[i]) ==> !s.tasks[w.task].row.status.IsTerminal();
    forall x, y | 0 <= x < y < |s'.workers| && Won(s'.workers[x]) && Won(s'.workers[y])
      ensures s'.workers[x].task != s'.workers[y].task
    {
      assert x != i ==> s'.workers[x] == s.workers[x];
      assert y != i ==> s'.workers[y] == s.workers[y];
    }
    forall t | 0 <= t < |s'.tasks| && s'.tasks[t].row.status.IsTerminal()
      ensures exists x :: 0 <= x < |s'.workers| && s'.workers[x].task == t && Won(s'.workers[x])
    {
      if t == w.task && !s.tasks[t].row.status.IsTerminal() {
        assert s'.workers[i].task == t && Won(s'.workers[i]);
      } else {
        assert s.tasks[t].row.status.IsTerminal();
        var x :| 0 <= x < |s.workers| && s.workers[x].task == t && Won(s.workers[x]);
        assert s'.workers[x].task == t && Won(s'.workers[x]);
      }
    }
  }

  lemma WorkKeepsOthers(s: State, i: nat, v: Verdict, j: nat)
    requires Inv(s) && i < |s.workers| && j < |s.workers|
    ensures var s' := Next(s, Work(i, v));
      s'.workers[j].task < |s'.tasks| && WorkerOk(s'.books, s'.tasks[s'.workers[j].task], s'.workers[j])
  {
    var w, o := s.workers[i], s.workers[j];
    var (b, t, w') := WorkerStep(s.books, s.tasks[w.task], w, v);
    WorkerStepKeeps(s.books, s.tasks[w.task], w, v);
    if j != i {
      WorkerFrame(s.books, b, s.tasks[o.task], o);
      if o.task == w.task {
        if s.tasks[o.task].row.status.IsTerminal() && !Won(w) {
          NonWinnerCannotTouch(s.books, s.tasks[w.task], w, v);
        } else if !s.tasks[o.task].row.status.IsTerminal() {
          assert !Won(o) && !Won(w);
          assert t.row.quota == s.tasks[w.task].row.quota;
        } else {
          assert Won(w) && !Won(o);
        }
      }
    }
  }

  lemma WorkKeepsInv(s: State, i: nat, v: Verdict)
    requires Inv(s) && i < |s.workers|
    ensures Inv(Next(s, Work(i, v)))
  {
    var w := s.workers[i];
    var s' := Next(s, Work(i, v));
    WorkerStepKeeps(s.books, s.tasks[w.task], w, v);
    WorkKeepsSingleWinner(s, i, v);
    BooksFrame(s, s'.books);
    forall j | 0 <= j < |s'.workers|
      ensures s'.workers[j].task < |s'.tasks| && WorkerOk(s'.books, s'.tasks[s'.workers[j].task], s'.workers[j])
    {
      WorkKeepsOthers(s, i, v, j);
    }
  }

  lemma ListKeepsInv(s: State, task: nat)
    requires Inv(s)
    ensures Inv(Next(s, List(task)))
  {
    var s' := Next(s, List(task));
    assert forall w :: 0 <= w < |s.workers| ==> s'.workers[w] == s.workers[w];
    forall t | 0 <= t < |s'.tasks| && s'.tasks[t].row.status.IsTerminal()
      ensures exists w :: 0 <= w < |s'.workers| && s'.workers[w].task == t && Won(s'.workers[w])
    {
      var w :| 0 <= w < |s.workers| && s.workers[w].task == t && Won(s.workers[w]);
      assert s'.workers[w].task == t;
    }
  }

  lemma OtherKeepsInv(s: State, e: Event)
    requires Inv(s) && (e.Submit? || e.Deposit? || e.IssueToken? || e.DropToken?)
    ensures Inv(Next(s, e)) && Evolves(s.books, Next(s, e).books)
  {
    MoneyMoves(s.books, 0, 0, 0);
    match e
    case Submit(user, token, quota) =>
    case Deposit(user, amount) =>
      MoneyMoves(s.books, user, 0, amount);
      BooksFrame(s, AddToUser(s.books, user, amount));
    case IssueToken(_, _, _) => BooksFrame(s, Next(s, e).books);
    case DropToken(_) => BooksFrame(s, Next(s, e).books);
  }

  lemma NextKeepsInv(s: State, e: Event)
    requires Inv(s)
    ensures Inv(Next(s, e)) && Evolves(s.books, Next(s, e).books)
  {
    match e
    case Advance(i, a) =>
      if i < |s.submits| {
        AdvanceKeepsInv(s, i, a);
        SubmitStepKeeps(s.books, s.submits[i], a);
      }
    case List(task) => ListKeepsInv(s, task);
    case Work(i, v) =>
      if i < |s.workers| {
        WorkKeepsInv(s, i, v);
        WorkerStepKeeps(s.books, s.tasks[s.workers[i].task], s.workers[i], v);
      }
    case _ => OtherKeepsInv(s, e);
  }

  lemma {:induction false} RunKeepsInv(s: State, es: seq<Event>)
    requires Inv(s)
    ensures Inv(Run(s, es)) && Evolves(s.books, Run(s, es).books)
  {
    if es == [] {
    } else {
      var mid := Run(s, es[..|es| - 1]);
      RunKeepsInv(s, es[..|es| - 1]);
      NextKeepsInv(mid, es[|es| - 1]);
      EvolvesTransitive(s.books, mid.books, Run(s, es).books);
    }
  }

  lemma InitEstablishesInv(s: State)
    requires Init(s)
    ensures Inv(s)
  {
  }

  lemma {:induction false} RunSplit(s: State, es: seq<Event>, fs: seq<Event>)
    ensures Run(s, es + fs) == Run(Run(s, es), fs)
  {
    if fs == [] {
      assert es + fs == es;
    } else {
      var n := |fs| - 1;
      assert (es + fs)[..|es + fs| - 1] == es + fs[..n];
      RunSplit(s, es, fs[..n]);
    }
  }

  // ------------------------------------------------------------------ money is conserved

  function SubmitBy(u: UserId): Submitter -> int { (p: Submitter) => if p.user == u then UserHeld(p) else 0 }

  function RowBy(u: UserId): Tracked -> int { (t: Tracked) => if t.row.user == u then RowHeld(t.row) else 0 }

  function OwedBy(u: UserId): Worker -> int { (w: Worker) => if w.snap.user == u then Owed(w) else 0 }

  /** Balance, plus charges held by in-flight submits, plus charges recorded on task rows,
      plus what compare-and-set winners still owe or have yet to write down. */
  function Wealth(s: State, u: UserId): int {
    Balance(s.books, u) + Total(s.submits, SubmitBy(u)) + Total(s.tasks, RowBy(u)) + Total(s.workers, OwedBy(u))
  }

  function DepositTo(u: UserId): Event -> int { (e: Event) => if e.Deposit? && e.user == u then e.amount else 0 }

  lemma SubmitConserves(b: Books, p: Submitter, a: Answer, u: UserId)
    requires SubmitOk(b, p)
    ensures var (b', p', t) := SubmitStep(b, p, a);
      Balance(b', u) + SubmitBy(u)(p') + (if t.Some? then RowBy(u)(t.value) else 0)
        == Balance(b, u) + SubmitBy(u)(p)
  {
  }

  lemma WorkerConserves(b: Books, t: Tracked, w: Worker, v: Verdict, u: UserId)
    requires RowOk(b, t) && WorkerOk(b, t, w)
    ensures var (b', t', w') := WorkerStep(b, t, w, v);
      Balance(b', u) + RowBy(u)(t') + OwedBy(u)(w') == Balance(b, u) + RowBy(u)(t) + OwedBy(u)(w)
  {
  }

  lemma AdvanceConserves(s: State, i: nat, a: Answer, u: UserId)
    requires Inv(s) && i < |s.submits|
    ensures Wealth(Next(s, Advance(i, a)), u) == Wealth(s, u)
  {
    var (b, p, t) := SubmitStep(s.books, s.submits[i], a);
    SubmitConserves(s.books, s.submits[i], a, u);
    TotalUpdate(s.submits, i, p, SubmitBy(u));
    if t.Some? { TotalAppend(s.tasks, t.value, RowBy(u)); }
  }

  lemma WorkConserves(s: State, i: nat, v: Verdict, u: UserId)
    requires Inv(s) && i < |s.workers|
    ensures Wealth(Next(s, Work(i, v)), u) == Wealth(s, u)
  {
    var w := s.workers[i];
    var (b, t, w') := WorkerStep(s.books, s.tasks[w.task], w, v);
    WorkerConserves(s.books, s.tasks[w.task], w, v, u);
    TotalUpdate(s.workers, i, w', OwedBy(u));
    TotalUpdate(s.tasks, w.task, t, RowBy(u));
  }

  lemma OtherConserves(s: State, e: Event, u: UserId)
    requires u in s.books.users && !e.Advance? && !e.Work?
    ensures Wealth(Next(s, e), u) == Wealth(s, u) + DepositTo(u)(e)
  {
    if e.Submit? {
      SubmitOpens(s, e, u);
    } else if e.List? {
      ListOwesNothing(s, e.task, u);
    } else {
      var s' := Next(s, e);
      assert s'.submits == s.submits && s'.tasks == s.tasks && s'.workers == s.workers;
    }
  }

  lemma SubmitOpens(s: State, e: Event, u: UserId)
    requires e.Submit?
    ensures Wealth(Next(s, e), u) == Wealth(s, u)
  {
    var p := NewSubmitter(e.user, e.token, e.quota);
    assert Total(s.submits + [p], SubmitBy(u)) == Total(s.submits, SubmitBy(u)) by {
      TotalAppend(s.submits, p, SubmitBy(u));
    }
  }

  lemma ListOwesNothing(s: State, task: nat, u: UserId)
    ensures Wealth(Next(s, List(task)), u) == Wealth(s, u)
  {
    if task < |s.tasks| {
      var w := Worker(task, s.tasks[task].row, Listed);
      assert Total(s.workers + [w], OwedBy(u)) == Total(s.workers, OwedBy(u)) by {
        TotalAppend(s.workers, w, OwedBy(u));
      }
    }
  }

  lemma NextConserves(s: State, e: Event, u: UserId)
    requires Inv(s) && u in s.books.users
    ensures Wealth(Next(s, e), u) == Wealth(s, u) + DepositTo(u)(e)
  {
    if e.Advance? && e.submitter < |s.submits| {
      AdvanceConserves(s, e.submitter, e.answer, u);
    } else if e.Work? && e.worker < |s.workers| {
      WorkConserves(s, e.worker, e.verdict, u);
    } else if e.Advance? || e.Work? {
      assert Next(s, e) == s;
    } else {
      OtherConserves(s, e, u);
    }
  }

  /** Money conservation over every run. */
  lemma {:induction false} Conservation(s: State, es: seq<Event>, u: UserId)
    requires Inv(s) && u in s.books.users
    ensures Wealth(Run(s, es), u) == Wealth(s, u) + Total(es, DepositTo(u))
  {
    if es == [] {
    } else {
      Conservation(s, es[..|es| - 1], u);
      RunKeepsInv(s, es[..|es| - 1]);
      NextConserves(Run(s, es[..|es| - 1]), es[|es| - 1], u);
    }
  }

  // ------------------------------------------------------------------ the token ledger

  function SubmitOn(k: TokenId): Submitter -> int { (p: Submitter) => if p.token == k then p.paid.token else 0 }

  function RowOn(k: TokenId): Tracked -> int { (t: Tracked) => if t.row.token == k then t.paid.token else 0 }

  function Stock(s: State, k: TokenId): int {
    Remain(s.books, k) + Total(s.submits, SubmitOn(k)) + Total(s.tasks, RowOn(k))
  }

  lemma SubmitConservesToken(b: Books, p: Submitter, a: Answer, k: TokenId)
    requires k in b.tokens
    ensures var (b', p', t) := SubmitStep(b, p, a);
      Remain(b', k) + SubmitOn(k)(p') + (if t.Some? then RowOn(k)(t.value) else 0) == Remain(b, k) + SubmitOn(k)(p)
  {
  }

  lemma WorkerConservesToken(b: Books, t: Tracked, w: Worker, v: Verdict, k: TokenId)
    requires k in b.tokens && w.snap.token == t.row.token
    ensures var (b', t', w') := WorkerStep(b, t, w, v);
      Remain(b', k) + RowOn(k)(t') == Remain(b, k) + RowOn(k)(t)
  {
  }

  lemma NextConservesToken(s: State, e: Event, k: TokenId)
    requires Inv(s) && k in s.books.tokens && k in Next(s, e).books.tokens
    ensures Stock(Next(s, e), k) == Stock(s, k)
  {
    match e
    case Submit(user, token, quota) =>
      TotalAppend(s.submits, NewSubmitter(user, token, quota), SubmitOn(k));
    case Advance(i, a) =>
      if i < |s.submits| {
        var (b, p, t) := SubmitStep(s.books, s.submits[i], a);
        SubmitConservesToken(s.books, s.submits[i], a, k);
        TotalUpdate(s.submits, i, p, SubmitOn(k));
        if t.Some? { TotalAppend(s.tasks, t.value, RowOn(k)); }
      }
    case Work(i, v) =>
      if i < |s.workers| {
        var w := s.workers[i];
        var (b, t, w') := WorkerStep(s.books, s.tasks[w.task], w, v);
        WorkerConservesToken(s.books, s.tasks[w.task], w, v, k);
        TotalUpdate(s.tasks, w.task, t, RowOn(k));
      }
    case _ =>
  }

  /** As long as the token row exists, what it lost is exactly what orders hold of it;
      and every statement keeps remaining plus used quota. */
  lemma {:induction false} TokenConservation(s: State, es: seq<Event>, k: TokenId)
    requires Inv(s) && k in s.books.tokens && k in Run(s, es).books.tokens
    ensures Stock(Run(s, es), k) == Stock(s, k)
    ensures var t, t' := s.books.tokens[k], Run(s, es).books.tokens[k]; t'.remain + t'.used == t.remain + t.used
  {
    RunKeepsInv(s, es);
    if es == [] {
    } else {
      var mid := Run(s, es[..|es| - 1]);
      RunKeepsInv(s, es[..|es| - 1]);
      NextKeepsInv(mid, es[|es| - 1]);
      assert k in mid.books.tokens;
      TokenConservation(s, es[..|es| - 1], k);
      NextConservesToken(mid, es[|es| - 1], k);
    }
  }

  // ------------------------------------------------------------------ one terminal transition per task

  lemma NextKeepsRow(s: State, e: Event, t: nat)
    requires Inv(s) && t < |s.tasks|
    ensures t < |Next(s, e).tasks|
    ensures var r, r' := s.tasks[t].row, Next(s, e).tasks[t].row;
      && (r.status.IsTerminal() ==> r'.status == r.status)
      && (!r'.status.IsTerminal() ==> r'.quota == r.quota)
      && r'.user == r.user && r'.token == r.token && r'.submitTime == r.submitTime
  {
  }

  /** Terminal statuses are absorbing, and a running task's quota never moves: whatever
      stale snapshot a later winner holds, its quota is what the row still says. */
  lemma {:induction false} TerminalIsForever(s: State, es: seq<Event>, t: nat)
    requires Inv(s) && t < |s.tasks|
    ensures t < |Run(s, es).tasks|
    ensures var r, r' := s.tasks[t].row, Run(s, es).tasks[t].row;
      && (r.status.IsTerminal() ==> r'.status == r.status)
      && (!r'.status.IsTerminal() ==> r'.quota == r.quota)
      && r'.user == r.user && r'.token == r.token
  {
    if es == [] {
    } else {
      TerminalIsForever(s, es[..|es| - 1], t);
      RunKeepsInv(s, es[..|es| - 1]);
      NextKeepsRow(Run(s, es[..|es| - 1]), es[|es| - 1], t);
    }
  }

  /** The processes that called, or are about to call, RefundTask or SettleSuccess. */
  function Winners(s: State, t: nat): set<nat> {
    set w | 0 <= w < |s.workers| && s.workers[w].task == t && Won(s.workers[w])
  }

  /** In every reachable state a terminal task has exactly one winner and a running
      task has none, despite stale snapshots and revisited statuses. */
  lemma ExactlyOneWinner(s: State, es: seq<Event>, t: nat)
    requires Init(s) && t < |Run(s, es).tasks|
    ensures |Winners(Run(s, es), t)| == if Run(s, es).tasks[t].row.status.IsTerminal() then 1 else 0
  {
    assert Inv(Run(s, es)) by {
      InitEstablishesInv(s);
      RunKeepsInv(s, es);
    }
    OneWinner(Run(s, es), t);
  }

  lemma OneWinner(r: State, t: nat)
    requires Inv(r) && t < |r.tasks|
    ensures |Winners(r, t)| == if r.tasks[t].row.status.IsTerminal() then 1 else 0
  {
    if r.tasks[t].row.status.IsTerminal() {
      var w :| 0 <= w < |r.workers| && r.workers[w].task == t && Won(r.workers[w]);
      assert Winners(r, t) == {w};
    } else {
      assert Winners(r, t) == {};
    }
  }

  /** A worker that has won stays the winner: it never goes back to its snapshot. */
  lemma {:induction false} WinnerStaysWinner(s: State, es: seq<Event>, w: nat)
    requires Inv(s) && w < |s.workers| && Won(s.workers[w])
    ensures w < |Run(s, es).workers| && Won(Run(s, es).workers[w]) && Run(s, es).workers[w].task == s.workers[w].task
    ensures WonFailure(Run(s, es).workers[w]) == WonFailure(s.workers[w])
  {
    if es == [] {
    } else {
      WinnerStaysWinner(s, es[..|es| - 1], w);
    }
  }

  // ------------------------------------------------------------------ who ends up paying what

  /** Once a task's winner has finished: a SUCCESS task has cost its owner exactly the
      quota its row stores; a FAILURE task has cost nothing, unless its stored quota was
      negative, which is never taken back. The token ledger agrees while the token exists. */
  lemma FinalNetDebit(s: State, es: seq<Event>, w: nat)
    requires Init(s) && w < |Run(s, es).workers|
    requires Run(s, es).workers[w].pc.Refunded? || Run(s, es).workers[w].pc.Settled?
    ensures var r := Run(s, es); var t := r.workers[w].task;
      && t < |r.tasks|
      && var net := if r.tasks[t].row.status.Success? then r.tasks[t].row.quota else Min(r.tasks[t].row.quota, 0);
      && r.tasks[t].row.status.IsTerminal()
      && r.tasks[t].paid.user == net
      && (r.tasks[t].row.token in r.books.tokens ==>
            r.tasks[t].paid.token == if r.books.tokens[r.tasks[t].row.token].unlimited then 0 else net)
  {
    InitEstablishesInv(s);
    RunKeepsInv(s, es);
  }

  /** A failed task is free if and only if its recorded charge was not negative. */
  lemma FailureIsFreeIff(s: State, es: seq<Event>, w: nat)
    requires Init(s) && w < |Run(s, es).workers| && Run(s, es).workers[w].pc.Refunded?
    ensures var r := Run(s, es); var t := r.workers[w].task;
      t < |r.tasks| && (r.tasks[t].paid.user == 0 <==> r.tasks[t].row.quota >= 0)
  {
    FinalNetDebit(s, es, w);
    InitEstablishesInv(s);
    RunKeepsInv(s, es);
  }

  /** All-or-nothing pre-consumption and return, under every interleaving. */
  lemma SubmitOutcome(s: State, es: seq<Event>, i: nat)
    requires Init(s) && i < |Run(s, es).submits|
    ensures var r := Run(s, es); var p := r.submits[i];
      // rejected by a guard, or returned after a failure: nothing taken from either ledger
      && (p.pc.Rejected? || p.pc.Returned? ==> p.paid.user == 0 && TokenSide(r.books, p.token, p.paid.token, 0))
      // accepted: exactly the quota taken from each ledger that applies
      && (p.pc.Upstream? ==> p.paid.user == p.quota && TokenSide(r.books, p.token, p.paid.token, p.quota))
      // about to insert: exactly what the row will record
      && (p.pc.Inserting? ==> p.paid.user == p.charged && TokenSide(r.books, p.token, p.paid.token, p.charged))
      // the token vanished before the return: the whole charge stays with the server
      && (p.pc.Stranded? ==> p.paid.user == p.charged && p.token !in r.books.tokens)
  {
    InitEstablishesInv(s);
    RunKeepsInv(s, es);
  }

  lemma RunFirst(s: State, e: Event, es: seq<Event>)
    ensures Run(s, [e] + es) == Run(Next(s, e), es)
  {
    RunSplit(s, [e], es);
    assert [e][..0] == [];
    assert Run(s, [e]) == Next(Run(s, []), e);
  }

  predicate IsAdvance(e: Event, i: nat) { e.Advance? && e.submitter == i }

  /** Whether the token row of submitter i, which is about to look it up, exists at the
      moment of that lookup: its next own step. */
  function FoundAtLookup(s: State, es: seq<Event>, i: nat): bool
    decreases |es|
  {
    if es == [] || i >= |s.submits| then false
    else if IsAdvance(es[0], i) then s.submits[i].token in s.books.tokens
    else FoundAtLookup(Next(s, es[0]), es[1..], i)
  }

  lemma OthersKeepSubmitter(s: State, e: Event, i: nat)
    requires i < |s.submits| && !IsAdvance(e, i)
    ensures i < |Next(s, e).submits| && Next(s, e).submits[i] == s.submits[i]
  {
  }

  /** Past the lookup: the return runs to its end, or the charge stays stranded. */
  ghost predicate PastLookup(p: Submitter, found: bool) {
    if found then p.pc.Returned? || (p.pc.Returning? && !p.pc.at.Lookup?) else p.pc.Stranded?
  }

  lemma {:induction false} LookupIsFinal(s: State, es: seq<Event>, i: nat, found: bool)
    requires i < |s.submits| && PastLookup(s.submits[i], found)
    ensures i < |Run(s, es).submits| && PastLookup(Run(s, es).submits[i], found)
    ensures Run(s, es).submits[i].charged == s.submits[i].charged
  {
    if es != [] {
      var mid, e := Run(s, es[..|es| - 1]), es[|es| - 1];
      LookupIsFinal(s, es[..|es| - 1], i, found);
      if !IsAdvance(e, i) { OthersKeepSubmitter(mid, e, i); }
    }
  }

  lemma {:induction false} LookupDecides(s: State, es: seq<Event>, i: nat)
    requires i < |s.submits| && s.submits[i].pc == Returning(Lookup)
    ensures i < |Run(s, es).submits| && Run(s, es).submits[i].charged == s.submits[i].charged
    ensures Run(s, es).submits[i].pc == Returning(Lookup) || PastLookup(Run(s, es).submits[i], FoundAtLookup(s, es, i))
    decreases |es|
  {
    if es != [] {
      var next := Next(s, es[0]);
      assert es == [es[0]] + es[1..];
      RunFirst(s, es[0], es[1..]);
      if IsAdvance(es[0], i) {
        LookupIsFinal(next, es[1..], i, s.submits[i].token in s.books.tokens);
      } else {
        OthersKeepSubmitter(s, es[0], i);
        LookupDecides(next, es[1..], i);
      }
    }
  }

  /** Once a failed submit has finished, whatever the others did meanwhile, it has cost
      nothing if and only if its token row existed at the lookup or nothing was charged;
      otherwise the user has lost, or gained, the whole charge. */
  lemma ReturnSucceedsIff(s: State, es: seq<Event>, fs: seq<Event>, i: nat)
    requires Init(s) && i < |Run(s, es).submits| && Run(s, es).submits[i].pc == Returning(Lookup)
    requires i < |Run(Run(s, es), fs).submits|
    requires Run(Run(s, es), fs).submits[i].pc.Returned? || Run(Run(s, es), fs).submits[i].pc.Stranded?
    ensures var r := Run(s, es); var p, p', found := r.submits[i], Run(r, fs).submits[i], FoundAtLookup(r, fs, i);
      && p'.charged == p.charged
      && (p'.paid.user == 0 <==> found || p.charged == 0)
      && (!found ==> p'.paid.user == p.charged)
  {
    RunSplit(s, es, fs);
    InitEstablishesInv(s);
    RunKeepsInv(s, es + fs);
    LookupDecides(Run(s, es), fs, i);
  }

  // ------------------------------------------------------------------ balances stay non-negative

  /** What the next step of a submitting handler takes from user u, and from token k, by a
      statement without a guard. */
  function SubmitRaise(p: Submitter, u: UserId): int {
    if p.pc.Adjusting? && p.pc.at.PayUser? && p.pc.at.owner == u then p.pc.adjusted - p.quota
    else if p.pc.Returning? && p.pc.at.PayUser? && p.pc.at.owner == u then -p.charged
    else 0
  }

  function SubmitTokenRaise(p: Submitter, k: TokenId): int {
    if p.token != k then 0
    else if p.pc.Adjusting? && p.pc.at.PayToken? then p.pc.adjusted - p.quota
    else if p.pc.Returning? && p.pc.at.PayToken? then -p.charged
    else if p.pc.PreUndo? then -p.quota
    else 0
  }

  /** The same for a poller or a timeout scan: only a settlement charges. */
  function WorkRaise(w: Worker, u: UserId): int {
    if w.pc.Settling? && w.pc.at.PayUser? && w.pc.at.owner == u then w.pc.final - w.snap.quota else 0
  }

  function WorkTokenRaise(w: Worker, k: TokenId): int {
    if w.snap.token == k && w.pc.Settling? && w.pc.at.PayToken? then w.pc.final - w.snap.quota else 0
  }

  /** The amount event e takes from user u by an unguarded statement. */
  function Surcharge(s: State, e: Event, u: UserId): int {
    match e
    case Advance(i, _) => if i < |s.submits| then SubmitRaise(s.submits[i], u) else 0
    case Work(i, _) => if i < |s.workers| then WorkRaise(s.workers[i], u) else 0
    case _ => 0
  }

  function TokenSurcharge(s: State, e: Event, k: TokenId): int {
    match e
    case Advance(i, _) => if i < |s.submits| then SubmitTokenRaise(s.submits[i], k) else 0
    case Work(i, _) => if i < |s.workers| then WorkTokenRaise(s.workers[i], k) else 0
    case _ => 0
  }

  /** No guarded statement overdraws: a step takes a balance below zero if and only if it
      is a price correction larger than the balance. */
  lemma OverdraftOnlyBySurcharge(s: State, e: Event, u: UserId)
    requires Inv(s) && Balance(s.books, u) >= 0
    ensures Balance(Next(s, e).books, u) < 0 <==> Surcharge(s, e, u) > Balance(s.books, u)
  {
    if e.Advance? && e.submitter < |s.submits| {
      assert SubmitOk(s.books, s.submits[e.submitter]);
      SubmitOverdraft(s.books, s.submits[e.submitter], e.answer, u);
    } else if e.Work? && e.worker < |s.workers| {
      var w := s.workers[e.worker];
      WorkOverdraft(s.books, s.tasks[w.task], w, e.verdict, u);
    }
  }

  lemma SubmitOverdraft(b: Books, p: Submitter, a: Answer, u: UserId)
    requires SubmitOk(b, p) && Balance(b, u) >= 0
    ensures Balance(SubmitStep(b, p, a).0, u) < 0 <==> SubmitRaise(p, u) > Balance(b, u)
  {
  }

  lemma WorkOverdraft(b: Books, t: Tracked, w: Worker, v: Verdict, u: UserId)
    requires RowOk(b, t) && WorkerOk(b, t, w) && Balance(b, u) >= 0
    ensures Balance(WorkerStep(b, t, w, v).0, u) < 0 <==> WorkRaise(w, u) > Balance(b, u)
  {
  }

  /** The same for the remaining quota of a token. */
  lemma TokenOverdraftOnlyBySurcharge(s: State, e: Event, k: TokenId)
    requires Inv(s) && k in s.books.tokens && Remain(s.books, k) >= 0
    ensures Remain(Next(s, e).books, k) < 0 <==> TokenSurcharge(s, e, k) > Remain(s.books, k)
  {
  }

  function Positive(x: int): nat { if x > 0 then x else 0 }

  /** All price increases of user u that the run executes, added up. */
  function Increases(s: State, es: seq<Event>, u: UserId): nat {
    if es == [] then 0
    else Increases(s, es[..|es| - 1], u) + Positive(Surcharge(Run(s, es[..|es| - 1]), es[|es| - 1], u))
  }

  function TokenIncreases(s: State, es: seq<Event>, k: TokenId): nat {
    if es == [] then 0
    else TokenIncreases(s, es[..|es| - 1], k) + Positive(TokenSurcharge(Run(s, es[..|es| - 1]), es[|es| - 1], k))
  }

  lemma DebtGrowsBySurcharge(s: State, e: Event, u: UserId)
    requires Inv(s)
    ensures Min(Balance(Next(s, e).books, u), 0) >= Min(Balance(s.books, u), 0) - Positive(Surcharge(s, e, u))
  {
    if e.Advance? && e.submitter < |s.submits| {
      SubmitDebt(s.books, s.submits[e.submitter], e.answer, u);
    } else if e.Work? && e.worker < |s.workers| {
      var w := s.workers[e.worker];
      WorkDebt(s.books, s.tasks[w.task], w, e.verdict, u);
    }
  }

  lemma SubmitDebt(b: Books, p: Submitter, a: Answer, u: UserId)
    ensures Min(Balance(SubmitStep(b, p, a).0, u), 0) >= Min(Balance(b, u), 0) - Positive(SubmitRaise(p, u))
  {
  }

  lemma WorkDebt(b: Books, t: Tracked, w: Worker, v: Verdict, u: UserId)
    requires WorkerOk(b, t, w)
    ensures Min(Balance(WorkerStep(b, t, w, v).0, u), 0) >= Min(Balance(b, u), 0) - Positive(WorkRaise(w, u))
  {
  }

  lemma TokenDebtGrowsBySurcharge(s: State, e: Event, k: TokenId)
    requires Inv(s) && k < s.books.nextToken
    ensures Min(Remain(Next(s, e).books, k), 0) >= Min(Remain(s.books, k), 0) - Positive(TokenSurcharge(s, e, k))
  {
    if e.Advance? && e.submitter < |s.submits| {
      assert SubmitOk(s.books, s.submits[e.submitter]);
      SubmitTokenDebt(s.books, s.submits[e.submitter], e.answer, k);
    } else if e.Work? && e.worker < |s.workers| {
      var w := s.workers[e.worker];
      WorkTokenDebt(s.books, s.tasks[w.task], w, e.verdict, k);
    }
  }

  lemma SubmitTokenDebt(b: Books, p: Submitter, a: Answer, k: TokenId)
    requires SubmitOk(b, p)
    ensures Min(Remain(SubmitStep(b, p, a).0, k), 0) >= Min(Remain(b, k), 0) - Positive(SubmitTokenRaise(p, k))
  {
  }

  lemma WorkTokenDebt(b: Books, t: Tracked, w: Worker, v: Verdict, k: TokenId)
    requires WorkerOk(b, t, w)
    ensures Min(Remain(WorkerStep(b, t, w, v).0, k), 0) >= Min(Remain(b, k), 0) - Positive(WorkTokenRaise(w, k))
  {
  }

  /** Guarded charges never add to a debt: in every run a balance and a token owe at most
      what they owed before plus the price increases that were executed. */
  lemma {:induction false} DebtIsBounded(s: State, es: seq<Event>, u: UserId, k: TokenId)
    requires Inv(s) && k < s.books.nextToken
    ensures Min(Balance(Run(s, es).books, u), 0) >= Min(Balance(s.books, u), 0) - Increases(s, es, u)
    ensures Min(Remain(Run(s, es).books, k), 0) >= Min(Remain(s.books, k), 0) - TokenIncreases(s, es, k)
  {
    if es == [] {
    } else {
      var mid, e := Run(s, es[..|es| - 1]), es[|es| - 1];
      RunKeepsInv(s, es[..|es| - 1]);
      DebtIsBounded(s, es[..|es| - 1], u, k);
      DebtGrowsBySurcharge(mid, e, u);
      TokenDebtGrowsBySurcharge(mid, e, k);
    }
  }

  /** So without price increases nothing that starts solvent is ever overdrawn. */
  lemma NeverBelowZero(s: State, es: seq<Event>, u: UserId, k: TokenId)
    requires Inv(s) && Increases(s, es, u) == 0 && TokenIncreases(s, es, k) == 0
    requires Balance(s.books, u) >= 0 && k < s.books.nextToken && Remain(s.books, k) >= 0
    ensures Balance(Run(s, es).books, u) >= 0 && Remain(Run(s, es).books, k) >= 0
  {
    DebtIsBounded(s, es, u, k);
  }

  /** A price correction in flight only lowers the price. */
  ghost predicate Discounted(s: State) {
    && (forall i :: 0 <= i < |s.submits| ==>
          var p := s.submits[i]; p.charged >= 0 && (p.pc.Adjusting? ==> 0 <= p.pc.adjusted <= p.quota))
    && (forall i :: 0 <= i < |s.submits| && s.submits[i].pc.PreUndo? ==> s.submits[i].quota > 0)
    && (forall i :: 0 <= i < |s.workers| && s.workers[i].pc.Settling? ==>
          s.workers[i].pc.final <= s.workers[i].snap.quota)
  }

  /** The adaptor's answer does not raise a price, and a new token starts with no debt. */
  predicate Mild(s: State, e: Event) {
    match e
    case Advance(i, a) => i < |s.submits| && a.adjusted.Some? ==> 0 <= a.adjusted.value <= s.submits[i].quota
    case Work(i, v) => i < |s.workers| && v.Succeeded? ==> v.final <= s.workers[i].snap.quota
    case IssueToken(_, _, remain) => remain >= 0
    case _ => true
  }

  predicate AllMild(s: State, es: seq<Event>) {
    es == [] || (AllMild(s, es[..|es| - 1]) && Mild(Run(s, es[..|es| - 1]), es[|es| - 1]))
  }

  ghost predicate Solvent(b: Books) {
    (forall u :: u in b.users ==> b.users[u] >= 0) && (forall k :: k in b.tokens ==> b.tokens[k].remain >= 0)
  }

  lemma MildKeepsDiscounted(s: State, e: Event)
    requires Inv(s) && Discounted(s) && Mild(s, e)
    ensures Discounted(Next(s, e))
  {
    var s' := Next(s, e);
    forall i | 0 <= i < |s'.submits|
      ensures var p := s'.submits[i]; p.charged >= 0 && (p.pc.Adjusting? ==> 0 <= p.pc.adjusted <= p.quota)
      ensures s'.submits[i].pc.PreUndo? ==> s'.submits[i].quota > 0
    {
      if i < |s.submits| { assert SubmitOk(s.books, s.submits[i]); }
    }
  }

  lemma DiscountsTakeNothing(s: State, e: Event, u: UserId, k: TokenId)
    requires Discounted(s)
    ensures Surcharge(s, e, u) <= 0 && TokenSurcharge(s, e, k) <= 0
  {
  }

  lemma MildStaysSolvent(s: State, e: Event)
    requires Inv(s) && Discounted(s) && Solvent(s.books) && Mild(s, e)
    ensures Solvent(Next(s, e).books)
  {
    var b := Next(s, e).books;
    forall u | u in b.users ensures b.users[u] >= 0 {
      DiscountsTakeNothing(s, e, u, 0);
      assert Balance(s.books, u) >= 0;
      OverdraftOnlyBySurcharge(s, e, u);
    }
    forall k | k in b.tokens ensures b.tokens[k].remain >= 0 {
      DiscountsTakeNothing(s, e, 0, k);
      if k in s.books.tokens && !e.IssueToken? {
        assert Remain(s.books, k) >= 0;
        TokenOverdraftOnlyBySurcharge(s, e, k);
      }
    }
  }

  /** Guarded charges, returns, refunds, deposits and settlements that do not raise the
      price never take any balance or any token below zero, in any interleaving. */
  lemma {:induction false} DiscountsNeverOverdraw(s: State, es: seq<Event>)
    requires Init(s) && Solvent(s.books) && AllMild(s, es)
    ensures Solvent(Run(s, es).books) && Discounted(Run(s, es)) && Inv(Run(s, es))
  {
    if es == [] {
      InitEstablishesInv(s);
    } else {
      var mid, e := Run(s, es[..|es| - 1]), es[|es| - 1];
      DiscountsNeverOverdraw(s, es[..|es| - 1]);
      NextKeepsInv(mid, e);
      MildKeepsDiscounted(mid, e);
      MildStaysSolvent(mid, e);
    }
  }

  // ------------------------------------------------------------------ runs that go wrong

  lemma RunSnoc(s: State, es: seq<Event>, e: Event)
    ensures Run(s, es + [e]) == Next(Run(s, es), e)
  {
    assert (es + [e])[..|es + [e]| - 1] == es;
  }

  function Opening(unlimited: bool): State {
    State(Books(map[1 := 100], map[1 := Token(1, unlimited, 100, 0)], 2), [], [], [])
  }

  /** n equal steps of process 0, from a known state. */
  function Steps(s: State, a: Answer, n: nat): State
    decreases n
  {
    if n == 0 then s else Steps(Next(s, Advance(0, a)), a, n - 1)
  }

  lemma {:induction false} StepsRun(s: State, es: seq<Event>, a: Answer, n: nat) returns (es': seq<Event>)
    ensures Run(s, es') == Steps(Run(s, es), a, n)
    decreases n
  {
    if n == 0 {
      es' := es;
    } else {
      RunSnoc(s, es, Advance(0, a));
      es' := StepsRun(s, es + [Advance(0, a)], a, n - 1);
    }
  }

  lemma FirstSubmit(s: State, quota: int) returns (es: seq<Event>)
    requires s == Opening(true) || s == Opening(false)
    ensures Run(s, es) == s.(submits := [NewSubmitter(1, 1, quota)])
  {
    RunSnoc(s, [], Submit(1, 1, quota));
    es := [] + [Submit(1, 1, quota)];
    assert Run(s, []) == s;
  }

  /** A submit of 40 that has reached its upstream. */
  lemma ChargedRun() returns (s: State, es: seq<Event>)
    ensures s == Opening(false)
    ensures var r := Run(s, es);
      && r.submits == [Submitter(1, 1, 40, 40, Upstream, Paid(40, 40))]
      && r.tasks == [] && r.books.users == map[1 := 60]
  {
    var go := Answer(true, None, true, 0);
    s := Opening(false);
    es := FirstSubmit(s, 40);
    var r := Run(s, es);
    var r1 := Next(r, Advance(0, go));
    assert r1.submits == [Submitter(1, 1, 40, 0, PreToken(1), Paid(0, 0))];
    var r2 := Next(r1, Advance(0, go));
    assert r2.submits == [Submitter(1, 1, 40, 0, PreUser(1, true), Paid(0, 40))];
    es := StepsRun(s, es, go, 3);
    assert Steps(r2, go, 1) == Next(r2, Advance(0, go));
  }

  /** A token deleted while its submit is upstream: the charge of 40 is never returned. */
  lemma StrandedRun() returns (s: State, es: seq<Event>)
    ensures Init(s) && Balance(s.books, 1) == 100
    ensures var r := Run(s, es);
      r.tasks == [] && |r.submits| == 1 && r.submits[0].pc.Stranded? && Balance(r.books, 1) == 60
  {
    var no := Answer(false, None, false, 0);
    s, es := ChargedRun();
    RunSnoc(s, es, DropToken(1));
    es := es + [DropToken(1)];
    var r := Run(s, es);
    var r1 := Next(r, Advance(0, no));
    assert r1.submits == [Submitter(1, 1, 40, 40, Returning(Lookup), Paid(40, 40))];
    es := StepsRun(s, es, no, 2);
    assert Steps(r1, no, 1) == Next(r1, Advance(0, no));
  }

  /** A submit of 0 that the adaptor corrects to `adjusted`, stored as a task and listed. */
  lemma AdjustedRun(adjusted: int) returns (s: State, es: seq<Event>)
    requires adjusted != 0
    ensures s == Opening(true)
    ensures var r, row := Run(s, es), Task(1, 1, adjusted, QUEUED, 0);
      r.tasks == [Tracked(row, Paid(adjusted, 0))] && r.workers == [Worker(0, row, Listed)]
      && r.books == s.books.(users := map[1 := 100 - adjusted])
  {
    var go := Answer(true, Some(adjusted), true, 0);
    s := Opening(true);
    es := FirstSubmit(s, 0);
    var r1 := Next(Run(s, es), Advance(0, go));
    var r2 := Next(r1, Advance(0, go));
    assert r2.submits == [Submitter(1, 1, 0, 0, Adjusting(adjusted, Lookup), Paid(0, 0))];
    es := StepsRun(s, es, go, 2);
    assert Steps(r1, go, 1) == r2;
    AdjustedRest(s, es, adjusted);
    es := StepsRun(s, es, go, 3);
    RunSnoc(s, es, List(0));
    es := es + [List(0)];
  }

  lemma AdjustedRest(s: State, es: seq<Event>, adjusted: int)
    requires s == Opening(true)
    requires Run(s, es) == s.(submits := [Submitter(1, 1, 0, 0, Adjusting(adjusted, Lookup), Paid(0, 0))])
    ensures var r, row := Steps(Run(s, es), Answer(true, Some(adjusted), true, 0), 3), Task(1, 1, adjusted, QUEUED, 0);
      r.tasks == [Tracked(row, Paid(adjusted, 0))] && r.workers == []
      && r.books == s.books.(users := map[1 := 100 - adjusted])
  {
    var go := Answer(true, Some(adjusted), true, 0);
    var r1 := s.(submits := [Submitter(1, 1, 0, 0, Adjusting(adjusted, PayUser(1, false)), Paid(0, 0))]);
    var paid := s.(submits := [Submitter(1, 1, 0, adjusted, Inserting, Paid(adjusted, 0))],
                   books := s.books.(users := map[1 := 100 - adjusted]));
    assert Next(Run(s, es), Advance(0, go)) == r1;
    AdjustedPays(s, r1, paid, adjusted);
    AdjustedInserts(paid, adjusted);
    assert Steps(paid, go, 1) == Next(paid, Advance(0, go));
    assert Steps(r1, go, 2) == Steps(paid, go, 1);
  }

  lemma AdjustedPays(s: State, r1: State, paid: State, adjusted: int)
    requires s == Opening(true)
    requires r1 == s.(submits := [Submitter(1, 1, 0, 0, Adjusting(adjusted, PayUser(1, false)), Paid(0, 0))])
    requires paid == s.(submits := [Submitter(1, 1, 0, adjusted, Inserting, Paid(adjusted, 0))],
                        books := s.books.(users := map[1 := 100 - adjusted]))
    ensures Next(r1, Advance(0, Answer(true, Some(adjusted), true, 0))) == paid
  {
    PaysUser(s.books, r1.submits[0], adjusted);
    assert r1.submits[0 := paid.submits[0]] == paid.submits;
  }

  lemma PaysUser(b: Books, p: Submitter, adjusted: int)
    requires b.users == map[1 := 100]
    requires p == Submitter(1, 1, 0, 0, Adjusting(adjusted, PayUser(1, false)), Paid(0, 0))
    ensures SubmitStep(b, p, Answer(true, Some(adjusted), true, 0))
      == (b.(users := map[1 := 100 - adjusted]), Submitter(1, 1, 0, adjusted, Inserting, Paid(adjusted, 0)), None)
  {
    assert AddToUser(b, 1, 0 - adjusted).users == map[1 := 100 - adjusted];
  }

  lemma AdjustedInserts(paid: State, adjusted: int)
    requires paid.submits == [Submitter(1, 1, 0, adjusted, Inserting, Paid(adjusted, 0))]
    requires paid.tasks == [] && paid.workers == []
    ensures var r := Next(paid, Advance(0, Answer(true, Some(adjusted), true, 0)));
      && r.tasks == [Tracked(Task(1, 1, adjusted, QUEUED, 0), Paid(adjusted, 0))]
      && r.workers == [] && r.books == paid.books
  {
  }

  /** An adjustment below zero, then a failure: the user keeps 5 although the task failed. */
  lemma NegativeChargeRun() returns (s: State, es: seq<Event>)
    ensures Init(s) && Balance(s.books, 1) == 100
    ensures var r := Run(s, es);
      |r.tasks| == 1 && r.tasks[0].row.status.Failure? && |r.workers| == 1 && r.workers[0].pc.Refunded?
      && r.tasks[0].paid.user == -5 && Balance(r.books, 1) == 105
  {
    s, es := AdjustedRun(-5);
    RunSnoc(s, es, Work(0, Failed));
    es := es + [Work(0, Failed)];
  }

  /** A settlement above the balance: a task of 10 settles at 150 and leaves the user, who
      had 100, at -50. */
  lemma OverdraftRun() returns (s: State, es: seq<Event>)
    ensures Init(s) && Solvent(s.books)
    ensures var r := Run(s, es); |r.tasks| == 1 && r.tasks[0].row.status.Success? && Balance(r.books, 1) == -50
  {
    s, es := AdjustedRun(10);
    var r, v := Run(s, es), Succeeded(150);
    var r1 := Next(r, Work(0, v));
    var r2 := Next(r1, Work(0, v));
    assert r1.workers[0].pc == Settling(150, Lookup) && r2.workers[0].pc == Settling(150, PayUser(1, false));
    RunSnoc(s, es, Work(0, v));
    es := es + [Work(0, v)];
    RunSnoc(s, es, Work(0, v));
    es := es + [Work(0, v)];
    RunSnoc(s, es, Work(0, v));
    es := es + [Work(0, v)];
  }
}
