/** Asynchronous task billing as a protocol. Submitting handlers, pollers and timeout
    scans run concurrently; every SQL statement is one atomic step, and a process keeps
    only its program counter and the row it read. A run is any finite sequence of events;
    an event that is not enabled changes nothing. */
module TaskProtocol {
  import opened Sums
  import opened Ledger
  import opened TaskTable
  import opened Wrappers

  /** History of an order: net amount moved out of the user ledger and out of the token
      ledger so far. No step reads it. */
  datatype Paid = Paid(user: int, token: int)

  /** The three statements of PostConsumeTokenQuota. */
  datatype Post = Lookup | PayUser(owner: UserId, capped: bool) | PayToken

  datatype SubmitPc =
    | PreLookup | PreToken(owner: UserId) | PreUser(owner: UserId, capped: bool) | PreUndo
    | Upstream
    | Adjusting(adjusted: int, at: Post)
    | Inserting
    | Returning(at: Post)
    | Rejected | Returned | Stranded | Inserted

  datatype Submitter = Submitter(user: UserId, token: TokenId, quota: int, charged: int, pc: SubmitPc, paid: Paid)

  datatype Tracked = Tracked(row: Task, paid: Paid)

  datatype WorkerPc =
    | Listed
    | Refunding(at: Post) | PayingOwner | Refunded
    | Settling(final: int, at: Post) | Saving(final: int) | Settled
    | LostRace | Refreshed

  /** A poller or a timeout scan working on one listed row, read at some earlier moment. */
  datatype Worker = Worker(task: nat, snap: Task, pc: WorkerPc)

  /** Task ids are positions: the table is append-only and auto-incremented. */
  datatype State = State(books: Books, submits: seq<Submitter>, tasks: seq<Tracked>, workers: seq<Worker>)

  /** What the upstream and the database answer to a submitting handler. */
  datatype Answer = Answer(accepted: bool, adjusted: Option<int>, inserted: bool, submitTime: int)

  /** What a poller concludes about one task; a timeout scan concludes Failed. */
  datatype Verdict = Succeeded(final: int) | Failed | StillRunning(name: Option<string>)

  datatype Event =
    | Submit(user: UserId, token: TokenId, quota: int)
    | Advance(submitter: nat, answer: Answer)
    | List(task: nat)
    | Work(worker: nat, verdict: Verdict)
    | Deposit(user: UserId, amount: nat)
    | IssueToken(owner: UserId, unlimited: bool, remain: int)
    | DropToken(token: TokenId)

  // ------------------------------------------------------------------ steps

  function TokenMoved(b: Books, t: TokenId, amount: int): int {
    if t in b.tokens then amount else 0
  }

  /** One statement of RelayVideoSubmit. */
  function SubmitStep(b: Books, p: Submitter, a: Answer): (Books, Submitter, Option<Tracked>) {
    var k := p.token;
    match p.pc
    case PreLookup =>
      if p.quota < 0 then (b, p.(pc := Rejected), None)
      else if p.quota == 0 then (b, p.(pc := Upstream), None)
      else if k !in b.tokens then (b, p.(pc := Rejected), None)
      else if b.tokens[k].unlimited then (b, p.(pc := PreUser(b.tokens[k].owner, false)), None)
      else (b, p.(pc := PreToken(b.tokens[k].owner)), None)
    case PreToken(owner) =>
      if TokenCovers(b, k, p.quota) then
        (AddToToken(b, k, -p.quota),
         p.(pc := PreUser(owner, true), paid := p.paid.(token := p.paid.token + p.quota)), None)
      else (b, p.(pc := Rejected), None)
    case PreUser(owner, capped) =>
      if UserCovers(b, owner, p.quota) then
        (AddToUser(b, owner, -p.quota),
         p.(pc := Upstream, charged := p.quota, paid := p.paid.(user := p.paid.user + p.quota)), None)
      else (b, p.(pc := if capped then PreUndo else Rejected), None)
    case PreUndo =>
      (AddToToken(b, k, p.quota),
       p.(pc := Rejected, paid := p.paid.(token := p.paid.token - TokenMoved(b, k, p.quota))), None)
    case Upstream =>
      if !a.accepted then (b, p.(pc := Returning(Lookup)), None)
      else if a.adjusted.Some? && a.adjusted.value != p.quota then
        (b, p.(pc := Adjusting(a.adjusted.value, Lookup)), None)
      else (b, p.(pc := Inserting), None)
    case Adjusting(adjusted, Lookup) =>
      if k !in b.tokens then (b, p.(pc := Inserting), None)
      else (b, p.(pc := Adjusting(adjusted, PayUser(b.tokens[k].owner, !b.tokens[k].unlimited))), None)
    case Adjusting(adjusted, PayUser(owner, capped)) =>
      var q := p.(paid := p.paid.(user := p.paid.user + adjusted - p.quota));
      (AddToUser(b, owner, p.quota - adjusted),
       if capped then q.(pc := Adjusting(adjusted, PayToken)) else q.(pc := Inserting, charged := adjusted), None)
    case Adjusting(adjusted, PayToken) =>
      (AddToToken(b, k, p.quota - adjusted),
       p.(pc := Inserting, charged := adjusted,
          paid := p.paid.(token := p.paid.token + TokenMoved(b, k, adjusted - p.quota))), None)
    case Inserting =>
      if a.inserted then
        (b, p.(pc := Inserted, paid := Paid(0, 0)),
         Some(Tracked(Task(p.user, k, p.charged, QUEUED, a.submitTime), p.paid)))
      else (b, p.(pc := Returning(Lookup)), None)
    case Returning(Lookup) =>
      if k !in b.tokens then (b, p.(pc := Stranded), None)
      else (b, p.(pc := Returning(PayUser(b.tokens[k].owner, !b.tokens[k].unlimited))), None)
    case Returning(PayUser(owner, capped)) =>
      (AddToUser(b, owner, p.charged),
       p.(pc := if capped then Returning(PayToken) else Returned,
          paid := p.paid.(user := p.paid.user - p.charged)), None)
    case Returning(PayToken) =>
      (AddToToken(b, k, p.charged),
       p.(pc := Returned, paid := p.paid.(token := p.paid.token - TokenMoved(b, k, p.charged))), None)
    case Rejected => (b, p, None)
    case Returned => (b, p, None)
    case Stranded => (b, p, None)
    case Inserted => (b, p, None)
  }

  /** One statement of applyTaskInfo, failTask, RefundTask or SettleSuccess. */
  function WorkerStep(b: Books, t: Tracked, w: Worker, v: Verdict): (Books, Tracked, Worker) {
    var k := w.snap.token;
    var q := w.snap.quota;
    match w.pc
    case Listed => (
      match v
      case Succeeded(final) =>
        if CasMatches(t.row, w.snap.status) then
          (b, t.(row := t.row.(status := Success)), w.(pc := if final == q then Settled else Settling(final, Lookup)))
        else (b, t, w.(pc := LostRace))
      case Failed =>
        if CasMatches(t.row, w.snap.status) then
          (b, t.(row := t.row.(status := Failure)), w.(pc := if q <= 0 then Refunded else Refunding(Lookup)))
        else (b, t, w.(pc := LostRace))
      case StillRunning(name) =>
        (b, if name.Some? then t.(row := RefreshStatus(t.row, name.value)) else t, w.(pc := Refreshed)))
    case Refunding(Lookup) =>
      if k !in b.tokens then (b, t, w.(pc := PayingOwner))
      else (b, t, w.(pc := Refunding(PayUser(b.tokens[k].owner, !b.tokens[k].unlimited))))
    case Refunding(PayUser(owner, capped)) =>
      (AddToUser(b, owner, q), t.(paid := t.paid.(user := t.paid.user - q)),
       w.(pc := if capped then Refunding(PayToken) else Refunded))
    case Refunding(PayToken) =>
      (AddToToken(b, k, q), t.(paid := t.paid.(token := t.paid.token - TokenMoved(b, k, q))), w.(pc := Refunded))
    case PayingOwner =>
      (AddToUser(b, w.snap.user, q), t.(paid := t.paid.(user := t.paid.user - q)), w.(pc := Refunded))
    case Settling(final, Lookup) =>
      if k !in b.tokens then (b, t, w.(pc := Settled))
      else (b, t, w.(pc := Settling(final, PayUser(b.tokens[k].owner, !b.tokens[k].unlimited))))
    case Settling(final, PayUser(owner, capped)) =>
      (AddToUser(b, owner, q - final), t.(paid := t.paid.(user := t.paid.user + final - q)),
       w.(pc := if capped then Settling(final, PayToken) else Saving(final)))
    case Settling(final, PayToken) =>
      (AddToToken(b, k, q - final), t.(paid := t.paid.(token := t.paid.token + TokenMoved(b, k, final - q))),
       w.(pc := Saving(final)))
    case Saving(final) =>
      (b, t.(row := t.row.(quota := final)), w.(pc := Settled))
    case Refunded => (b, t, w)
    case Settled => (b, t, w)
    case LostRace => (b, t, w)
    case Refreshed => (b, t, w)
  }

  function NewSubmitter(user: UserId, token: TokenId, quota: int): Submitter {
    Submitter(user, token, quota, 0, PreLookup, Paid(0, 0))
  }

  function Next(s: State, e: Event): State {
    match e
    case Submit(user, token, quota) =>
      // the request was authenticated by a live token of this user
      if user in s.books.users && token in s.books.tokens && s.books.tokens[token].owner == user then
        s.(submits := s.submits + [NewSubmitter(user, token, quota)])
      else s
    case Advance(i, answer) =>
      if i < |s.submits| then
        var (b, p, t) := SubmitStep(s.books, s.submits[i], answer);
        s.(books := b, submits := s.submits[i := p], tasks := if t.Some? then s.tasks + [t.value] else s.tasks)
      else s
    case List(task) =>
      if task < |s.tasks| && !s.tasks[task].row.status.IsTerminal() then
        s.(workers := s.workers + [Worker(task, s.tasks[task].row, Listed)])
      else s
    case Work(i, verdict) =>
      if i < |s.workers| && s.workers[i].task < |s.tasks| then
        var w := s.workers[i];
        var (b, t, w') := WorkerStep(s.books, s.tasks[w.task], w, verdict);
        s.(books := b, tasks := s.tasks[w.task := t], workers := s.workers[i := w'])
      else s
    case Deposit(user, amount) => s.(books := AddToUser(s.books, user, amount))
    case IssueToken(owner, unlimited, remain) =>
      s.(books := s.books.(tokens := s.books.tokens[s.books.nextToken := Token(owner, unlimited, remain, 0)],
                           nextToken := s.books.nextToken + 1))
    case DropToken(token) => s.(books := s.books.(tokens := s.books.tokens - {token}))
  }

  function Run(s: State, es: seq<Event>): State {
    if es == [] then s else Next(Run(s, es[..|es| - 1]), es[|es| - 1])
  }

  /** Any ledgers, no process and no task yet. */
  ghost predicate Init(s: State) {
    && BooksOk(s.books)
    && s.submits == [] && s.tasks == [] && s.workers == []
  }

  ghost predicate BooksOk(b: Books) {
    forall t :: t in b.tokens ==> t < b.nextToken
  }

  // ------------------------------------------------------------------ what each party holds

  function Min(a: int, b: int): int { if a < b then a else b }

  /** User money a submitting handler has taken and neither returned nor put in a task row. */
  function UserHeld(p: Submitter): int {
    match p.pc
    case Upstream => p.charged
    case Adjusting(adjusted, at) => if at.PayToken? then adjusted else p.charged
    case Inserting => p.charged
    case Returning(at) => if at.PayToken? then 0 else p.charged
    case Stranded => p.charged
    case PreLookup => 0
    case PreToken(_) => 0
    case PreUser(_, _) => 0
    case PreUndo => 0
    case Rejected => 0
    case Returned => 0
    case Inserted => 0
  }

  function TokenHeld(p: Submitter): int {
    match p.pc
    case PreUser(_, _) => p.quota
    case PreUndo => p.quota
    case Upstream => p.charged
    case Adjusting(_, _) => p.charged
    case Inserting => p.charged
    case Returning(_) => p.charged
    case Stranded => p.charged
    case PreLookup => 0
    case PreToken(_) => 0
    case Rejected => 0
    case Returned => 0
    case Inserted => 0
  }

  /** What the stored row says is charged: a FAILURE row keeps only a negative quota,
      because a quota of zero or less is never refunded. */
  function RowHeld(row: Task): int {
    if row.status.Failure? then Min(row.quota, 0) else row.quota
  }

  /** A winner's unfinished business: a refund not yet paid, or a settlement delta paid
      but not yet written to the row. */
  function Owed(w: Worker): int {
    match w.pc
    case Refunding(at) => if at.PayToken? then 0 else w.snap.quota
    case PayingOwner => w.snap.quota
    case Settling(final, at) => if at.PayToken? then final - w.snap.quota else 0
    case Saving(final) => final - w.snap.quota
    case Listed => 0
    case Refunded => 0
    case Settled => 0
    case LostRace => 0
    case Refreshed => 0
  }

  /** This worker's compare-and-set took the task to a terminal status. */
  predicate Won(w: Worker) {
    w.pc.Refunding? || w.pc.PayingOwner? || w.pc.Refunded? || w.pc.Settling? || w.pc.Saving? || w.pc.Settled?
  }

  predicate WonFailure(w: Worker) { w.pc.Refunding? || w.pc.PayingOwner? || w.pc.Refunded? }

  // ------------------------------------------------------------------ invariant

  ghost predicate Known(b: Books, user: UserId, token: TokenId) {
    && user in b.users
    && token < b.nextToken
    && (token in b.tokens ==> b.tokens[token].owner == user)
  }

  /** While the token row exists, `moved` is `amount` for a capped token and 0 otherwise. */
  ghost predicate TokenSide(b: Books, token: TokenId, moved: int, amount: int) {
    token in b.tokens ==> moved == if b.tokens[token].unlimited then 0 else amount
  }

  ghost predicate Reads(b: Books, token: TokenId, capped: bool) {
    token in b.tokens ==> capped == !b.tokens[token].unlimited
  }

  ghost predicate PostOk(b: Books, user: UserId, token: TokenId, at: Post) {
    match at
    case Lookup => true
    case PayUser(owner, capped) => owner == user && Reads(b, token, capped)
    case PayToken => Reads(b, token, true)
  }

  ghost predicate SubmitOk(b: Books, p: Submitter) {
    && Known(b, p.user, p.token)
    && p.paid.user == UserHeld(p)
    && TokenSide(b, p.token, p.paid.token, TokenHeld(p))
    && match p.pc
       case PreLookup => p.charged == 0
       case PreToken(owner) => owner == p.user && p.quota > 0 && p.charged == 0 && Reads(b, p.token, true)
       case PreUser(owner, capped) => owner == p.user && p.quota > 0 && p.charged == 0 && Reads(b, p.token, capped)
       case PreUndo => Reads(b, p.token, true)
       case Upstream => p.charged == p.quota && p.quota >= 0
       case Adjusting(_, at) => p.charged == p.quota && PostOk(b, p.user, p.token, at)
       case Returning(at) => PostOk(b, p.user, p.token, at)
       case Stranded => p.token !in b.tokens
       case Inserting => true
       case Rejected => true
       case Returned => true
       case Inserted => true
  }

  ghost predicate RowOk(b: Books, t: Tracked) {
    && Known(b, t.row.user, t.row.token)
    && (!t.row.status.IsTerminal() ==>
          && t.paid.user == t.row.quota
          && TokenSide(b, t.row.token, t.paid.token, t.row.quota))
  }

  /** What the winner has moved so far, on each ledger. */
  ghost predicate WinnerOk(b: Books, t: Tracked, w: Worker) {
    var q := w.snap.quota;
    match w.pc
    case Refunding(at) =>
      && t.row.status.Failure? && t.row.quota == q && q > 0
      && PostOk(b, w.snap.user, w.snap.token, at)
      && t.paid.user == (if at.PayToken? then 0 else q)
      && TokenSide(b, w.snap.token, t.paid.token, q)
    case PayingOwner =>
      && t.row.status.Failure? && t.row.quota == q && q > 0
      && w.snap.token !in b.tokens && t.paid.user == q
    case Refunded =>
      && t.row.status.Failure? && t.row.quota == q
      && t.paid.user == Min(q, 0) && TokenSide(b, w.snap.token, t.paid.token, Min(q, 0))
    case Settling(final, at) =>
      && t.row.status.Success? && t.row.quota == q
      && PostOk(b, w.snap.user, w.snap.token, at)
      && t.paid.user == (if at.PayToken? then final else q)
      && TokenSide(b, w.snap.token, t.paid.token, q)
    case Saving(final) =>
      && t.row.status.Success? && t.row.quota == q
      && t.paid.user == final && TokenSide(b, w.snap.token, t.paid.token, final)
    case Settled =>
      && t.row.status.Success?
      && t.paid.user == t.row.quota && TokenSide(b, w.snap.token, t.paid.token, t.row.quota)
    case Listed => true
    case LostRace => true
    case Refreshed => true
  }

  ghost predicate WorkerOk(b: Books, t: Tracked, w: Worker) {
    && w.snap.user == t.row.user && w.snap.token == t.row.token
    && !w.snap.status.IsTerminal()
    && (!t.row.status.IsTerminal() ==> w.snap.quota == t.row.quota)
    && WinnerOk(b, t, w)
  }

  ghost predicate SingleWinner(tasks: seq<Tracked>, workers: seq<Worker>) {
    && (forall v, w :: 0 <= v < w < |workers| && Won(workers[v]) && Won(workers[w]) ==>
          workers[v].task != workers[w].task)
    && (forall t :: 0 <= t < |tasks| && tasks[t].row.status.IsTerminal() ==>
          exists w :: 0 <= w < |workers| && workers[w].task == t && Won(workers[w]))
  }

  ghost predicate Inv(s: State) {
    && BooksOk(s.books)
    && (forall i :: 0 <= i < |s.submits| ==> SubmitOk(s.books, s.submits[i]))
    && (forall t :: 0 <= t < |s.tasks| ==> RowOk(s.books, s.tasks[t]))
    && (forall w :: 0 <= w < |s.workers| ==>
          s.workers[w].task < |s.tasks| && WorkerOk(s.books, s.tasks[s.workers[w].task], s.workers[w]))
    && SingleWinner(s.tasks, s.workers)
  }

  // ------------------------------------------------------------------ local step lemmas

  /** A ledger statement changes amounts only. */
  lemma MoneyMoves(b: Books, u: UserId, k: TokenId, amount: int)
    requires BooksOk(b)
    ensures Evolves(b, b)
    ensures Evolves(b, AddToUser(b, u, amount)) && BooksOk(AddToUser(b, u, amount))
    ensures Evolves(b, AddToToken(b, k, amount)) && BooksOk(AddToToken(b, k, amount))
    ensures AddToUser(b, u, amount).users.Keys == b.users.Keys
  {
  }

  ghost predicate SubmitKept(b: Books, p: Submitter, a: Answer) {
    var (b', p', t) := SubmitStep(b, p, a);
    && BooksOk(b') && Evolves(b, b') && SubmitOk(b', p')
    && p'.user == p.user && p'.token == p.token
    && (t.Some? ==> RowOk(b', t.value) && !t.value.row.status.IsTerminal()
                    && t.value.row.user == p.user && t.value.row.token == p.token)
  }

  lemma PreTokenKeeps(b: Books, p: Submitter, a: Answer)
    requires BooksOk(b) && SubmitOk(b, p) && p.pc.PreToken?
    ensures SubmitKept(b, p, a)
  {
    MoneyMoves(b, p.user, p.token, -p.quota);
  }

  lemma PreUserKeeps(b: Books, p: Submitter, a: Answer)
    requires BooksOk(b) && SubmitOk(b, p) && p.pc.PreUser?
    ensures SubmitKept(b, p, a)
  {
    MoneyMoves(b, p.user, p.token, -p.quota);
  }

  lemma PreUndoKeeps(b: Books, p: Submitter, a: Answer)
    requires BooksOk(b) && SubmitOk(b, p) && p.pc.PreUndo?
    ensures SubmitKept(b, p, a)
  {
    MoneyMoves(b, p.user, p.token, p.quota);
  }

  lemma AdjustKeeps(b: Books, p: Submitter, a: Answer)
    requires BooksOk(b) && SubmitOk(b, p) && p.pc.Adjusting?
    ensures SubmitKept(b, p, a)
  {
    MoneyMoves(b, p.user, p.token, p.quota - p.pc.adjusted);
  }

  lemma ReturnKeeps(b: Books, p: Submitter, a: Answer)
    requires BooksOk(b) && SubmitOk(b, p) && p.pc.Returning?
    ensures SubmitKept(b, p, a)
  {
    MoneyMoves(b, p.user, p.token, p.charged);
  }

  lemma SubmitStepKeeps(b: Books, p: Submitter, a: Answer)
    requires BooksOk(b) && SubmitOk(b, p)
    ensures SubmitKept(b, p, a)
  {
    if p.pc.PreToken? {
      PreTokenKeeps(b, p, a);
    } else if p.pc.PreUser? {
      PreUserKeeps(b, p, a);
    } else if p.pc.PreUndo? {
      PreUndoKeeps(b, p, a);
    } else if p.pc.Adjusting? {
      AdjustKeeps(b, p, a);
    } else if p.pc.Returning? {
      ReturnKeeps(b, p, a);
    }
  }

  ghost predicate WorkerKept(b: Books, t: Tracked, w: Worker, v: Verdict) {
    var (b', t', w') := WorkerStep(b, t, w, v);
    && BooksOk(b') && Evolves(b, b') && RowOk(b', t') && WorkerOk(b', t', w')
    && w'.task == w.task && w'.snap == w.snap
    && t'.row.user == t.row.user && t'.row.token == t.row.token
  }

  lemma RefundKeeps(b: Books, t: Tracked, w: Worker, v: Verdict)
    requires BooksOk(b) && RowOk(b, t) && WorkerOk(b, t, w)
    requires w.pc.Refunding? || w.pc.PayingOwner?
    ensures WorkerKept(b, t, w, v)
  {
    MoneyMoves(b, w.snap.user, w.snap.token, w.snap.quota);
  }

  lemma SettleUserKeeps(b: Books, t: Tracked, w: Worker, v: Verdict)
    requires BooksOk(b) && RowOk(b, t) && WorkerOk(b, t, w) && w.pc.Settling? && w.pc.at.PayUser?
    ensures WorkerKept(b, t, w, v)
  {
    MoneyMoves(b, w.snap.user, w.snap.token, w.snap.quota - w.pc.final);
  }

  lemma SettleKeeps(b: Books, t: Tracked, w: Worker, v: Verdict)
    requires BooksOk(b) && RowOk(b, t) && WorkerOk(b, t, w) && w.pc.Settling? && !w.pc.at.PayUser?
    ensures WorkerKept(b, t, w, v)
  {
    MoneyMoves(b, w.snap.user, w.snap.token, w.snap.quota - w.pc.final);
  }

  lemma WorkerStepKeeps(b: Books, t: Tracked, w: Worker, v: Verdict)
    requires BooksOk(b) && RowOk(b, t) && WorkerOk(b, t, w)
    ensures WorkerKept(b, t, w, v)
  {
    if w.pc.Refunding? || w.pc.PayingOwner? {
      RefundKeeps(b, t, w, v);
    } else if w.pc.Settling? && w.pc.at.PayUser? {
      SettleUserKeeps(b, t, w, v);
    } else if w.pc.Settling? {
      SettleKeeps(b, t, w, v);
    }
  }

  lemma SubmitFrame(b: Books, b': Books, p: Submitter)
    requires Evolves(b, b') && SubmitOk(b, p)
    ensures SubmitOk(b', p)
  {
  }

  lemma RowFrame(b: Books, b': Books, t: Tracked)
    requires Evolves(b, b') && RowOk(b, t)
    ensures RowOk(b', t)
  {
  }

  lemma WorkerFrame(b: Books, b': Books, t: Tracked, w: Worker)
    requires Evolves(b, b') && RowOk(b, t) && WorkerOk(b, t, w)
    ensures WorkerOk(b', t, w)
  {
  }

  /** Only a listed worker can change a task somebody else has not won, and never one
      somebody has: a terminal row is out of reach of every non-winner. */
  lemma NonWinnerCannotTouch(b: Books, t: Tracked, w: Worker, v: Verdict)
    requires t.row.status.IsTerminal() && !Won(w) && !w.snap.status.IsTerminal()
    ensures var (b', t', w') := WorkerStep(b, t, w, v); b' == b && t' == t && !Won(w')
  {
  }
}
